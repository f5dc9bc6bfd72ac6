/** The loops of sync_workers.go, each proved against the function of Reconcile that says what
    the phase does.  KillPod and DeletePod are reached only through `Kill` and `Delete` below,
    whose preconditions are the cross-phase safety rule: no pod is touched while its worker
    row is active. */
module Reconciler {
  import opened Base
  import opened Cluster
  import opened Reconcile
  import Jobs
  import W = Workers

  /** GitHub's runner endpoints; `gone` is what was deleted since the tick's listings were fixed. */
  class GitHub {
    var gone: set<Deleted>

    constructor ()
      ensures gone == {}
    {
      gone := {};
    }

    method ListRunners(k: Key, env: Env) returns (list: Option<seq<Runner>>)
      ensures list == if env.listing(k).None? then None else Some(Listed(env.listing(k).value, k.Target(), gone))
    {
      var all := env.listing(k);
      list := if all.None? then None else Some(Listed(all.value, k.Target(), gone));
    }

    /** deleteGHRunner: true on 204 and on 404, so deleting twice is no error. */
    method DeleteRunner(k: Key, id: Id, env: Env) returns (ok: bool)
      modifies this
      ensures ok == !env.refuses(k, id)
      ensures gone == old(gone) + if ok then {Deleted(k.Target(), id)} else {}
    {
      ok := !env.refuses(k, id);
      if ok {
        gone := gone + {Deleted(k.Target(), id)};
      }
    }
  }

  ghost function View(workers: W.WorkerTable, k8s: KubeClient, gh: GitHub): State
    reads workers, k8s, gh
  {
    State(workers.rows, k8s.pods, gh.gone)
  }

  // ---- pods are only touched once their worker is retired ----

  ghost predicate NoActiveRow(rows: W.Rows, name: string) {
    name in rows ==> !rows[name].Active()
  }

  method Kill(k8s: KubeClient, workers: W.WorkerTable, name: string, env: Env)
    requires NoActiveRow(workers.rows, name)
    modifies k8s`pods
    ensures k8s.pods == if env.kubeRefuses(CallKill, name) || name !in old(k8s.pods) then old(k8s.pods)
                        else old(k8s.pods)[name := old(k8s.pods)[name].(deadlinePatched := true)]
  {
    k8s.KillPod(name, env.kubeRefuses(CallKill, name));
  }

  /** ForceDeletePod and DeletePod, as `call` says. */
  method Delete(k8s: KubeClient, workers: W.WorkerTable, name: string, call: PodCall, env: Env)
    requires NoActiveRow(workers.rows, name) && !call.CallKill?
    modifies k8s`pods
    ensures k8s.pods == if env.kubeRefuses(call, name) then old(k8s.pods) else old(k8s.pods) - {name}
  {
    k8s.DeletePod(name, env.kubeRefuses(call, name));
  }

  /** A phase is partway: the rows in `todo` are as before it, the others as after it. */
  ghost predicate Partway(rows: W.Rows, before: W.Rows, after: W.Rows, todo: set<string>)
    requires before.Keys == after.Keys
  {
    && rows.Keys == before.Keys
    && forall n :: n in rows ==> rows[n] == if n in todo then before[n] else after[n]
  }

  // ---- phases 1 and 2 ----

  method OrphanSweep(workers: W.WorkerTable, pods: Pods, snap: W.Rows, now: int)
    modifies workers
    ensures workers.rows == SweptRows(old(workers.rows), pods, snap, now)
  {
    var todo := snap.Keys;
    while todo != {}
      invariant todo <= snap.Keys
      invariant Partway(workers.rows, old(workers.rows), SweptRows(old(workers.rows), pods, snap, now), todo)
      decreases |todo|
    {
      var name :| name in todo;
      if name !in pods && (snap[name].status.Pending? || snap[name].status.Running?) {
        workers.MarkWorkerOrphaned(name, now);
      }
      todo := todo - {name};
    }
  }

  method SyncPod(workers: W.WorkerTable, name: string, p: Pod, w: W.Worker, now: int)
    modifies workers
    ensures workers.rows == if PhaseWrite(p, w, now).None? then old(workers.rows)
                            else W.Update(old(workers.rows), name, PhaseWrite(p, w, now).value)
  {
    match p.phase
    case PodRunning =>
      if w.status.Pending? {
        workers.MarkWorkerRunning(name, p.node, RunnerStartedAt(p), now);
      }
    case PodSucceeded =>
      if w.status.Pending? || w.status.Running? {
        var finished := FinishedAt(p);
        workers.MarkWorkerCompleted(name, p.node, finished, now);
      }
    case PodFailed =>
      if w.status.Pending? || w.status.Running? {
        var finished := FinishedAt(p);
        workers.MarkWorkerFailed(name, p.node, W.PodFailed, finished, now);
      }
    case _ =>
  }

  method PodPhaseSync(workers: W.WorkerTable, pods: Pods, snap: W.Rows, now: int)
    modifies workers
    ensures workers.rows == PhasedRows(old(workers.rows), pods, snap, now)
  {
    var todo := pods.Keys;
    while todo != {}
      invariant todo <= pods.Keys
      invariant Partway(workers.rows, old(workers.rows), PhasedRows(old(workers.rows), pods, snap, now), todo)
      decreases |todo|
    {
      var name :| name in todo;
      if name in snap {
        SyncPod(workers, name, pods[name], snap[name], now);
      }
      todo := todo - {name};
    }
  }

  // ---- the unreachable-node check ----

  method CheckNode(workers: W.WorkerTable, k8s: KubeClient, name: string, pods: Pods, snap: W.Rows,
                   nodes: map<string, KubeNode>, env: Env)
    requires name in snap
    modifies workers, k8s`pods
    ensures workers.rows == if Stranded(name, pods, snap, nodes)
                            then W.Update(old(workers.rows), name,
                                          W.MarkFailed(pods[name].node, W.NodeUnreachable, Some(env.now), env.now))
                            else old(workers.rows)
    ensures k8s.pods == old(k8s.pods) - if name in ForceDeleted(pods, snap, nodes, env) then {name} else {}
  {
    if !snap[name].status.Pending? && !snap[name].status.Running? {
      return;
    }
    if name !in pods || pods[name].node == "" {
      return;
    }
    var p := pods[name];
    if p.node !in nodes || !nodes[p.node].Unreachable() {
      return;
    }
    workers.MarkWorkerFailed(name, p.node, W.NodeUnreachable, Some(env.now), env.now);
    Delete(k8s, workers, name, CallForceDelete, env);
  }

  method UnreachableNodeCheck(workers: W.WorkerTable, k8s: KubeClient, pods: Pods, snap: W.Rows,
                              nodes: map<string, KubeNode>, env: Env)
    modifies workers, k8s`pods
    ensures workers.rows == UnreachableRows(old(workers.rows), pods, snap, nodes, env.now)
    ensures k8s.pods == old(k8s.pods) - ForceDeleted(pods, snap, nodes, env)
  {
    ghost var before, pods0 := workers.rows, k8s.pods;
    var todo := snap.Keys;
    StrandedEnds(before, pods0, pods, snap, nodes, env);
    while todo != {}
      invariant todo <= snap.Keys
      invariant Partway(workers.rows, before, UnreachableRows(before, pods, snap, nodes, env.now), todo)
      invariant k8s.pods == pods0 - (ForceDeleted(pods, snap, nodes, env) - todo)
      decreases |todo|
    {
      var name :| name in todo;
      VisitNode(workers, k8s, name, pods, snap, nodes, env, before, pods0, todo);
      todo := todo - {name};
    }
  }

  /** The check's loop at its first and last moment. */
  lemma StrandedEnds(rows: W.Rows, cluster: Pods, pods: Pods, snap: W.Rows, nodes: map<string, KubeNode>, env: Env)
    ensures var after := UnreachableRows(rows, pods, snap, nodes, env.now);
      Partway(rows, rows, after, snap.Keys) && forall rows' :: Partway(rows', rows, after, {}) ==> rows' == after
    ensures var doomed := ForceDeleted(pods, snap, nodes, env);
      cluster - (doomed - snap.Keys) == cluster && doomed - {} == doomed
  {
    assert ForceDeleted(pods, snap, nodes, env) <= snap.Keys;
    assert ForceDeleted(pods, snap, nodes, env) - snap.Keys == {};
  }

  method VisitNode(workers: W.WorkerTable, k8s: KubeClient, name: string, pods: Pods, snap: W.Rows,
                   nodes: map<string, KubeNode>, env: Env, ghost before: W.Rows, ghost pods0: Pods, ghost todo: set<string>)
    requires name in todo && name in snap
    requires Partway(workers.rows, before, UnreachableRows(before, pods, snap, nodes, env.now), todo)
    requires k8s.pods == pods0 - (ForceDeleted(pods, snap, nodes, env) - todo)
    modifies workers, k8s`pods
    ensures Partway(workers.rows, before, UnreachableRows(before, pods, snap, nodes, env.now), todo - {name})
    ensures k8s.pods == pods0 - (ForceDeleted(pods, snap, nodes, env) - (todo - {name}))
  {
    StrandedStep(workers.rows, before, pods, snap, nodes, env.now, todo, name);
    CheckNode(workers, k8s, name, pods, snap, nodes, env);
    DropOne(pods0, ForceDeleted(pods, snap, nodes, env), todo, name);
  }

  lemma DropOne(pods: Pods, doomed: set<string>, todo: set<string>, name: string)
    requires name in todo
    ensures pods - (doomed - todo) - (if name in doomed then {name} else {}) == pods - (doomed - (todo - {name}))
  {
  }

  lemma StrandedStep(rows: W.Rows, before: W.Rows, pods: Pods, snap: W.Rows, nodes: map<string, KubeNode>, now: int,
                     todo: set<string>, name: string)
    requires name in todo && Partway(rows, before, UnreachableRows(before, pods, snap, nodes, now), todo)
    ensures var rows' := if Stranded(name, pods, snap, nodes)
                         then W.Update(rows, name, W.MarkFailed(pods[name].node, W.NodeUnreachable, Some(now), now))
                         else rows;
      Partway(rows', before, UnreachableRows(before, pods, snap, nodes, now), todo - {name})
  {
  }

  // ---- phase 3 ----

  /** `out` is filled runner by runner and then cached, empty when the listing failed. */
  method FetchGHRunners(gh: GitHub, key: Key, env: Env, cache: map<Key, map<string, Runner>>)
    returns (out: map<string, Runner>, cache': map<Key, map<string, Runner>>)
    ensures out == if key in cache then cache[key] else Runners(env, key, gh.gone)
    ensures cache' == cache[key := out]
  {
    if key in cache {
      return cache[key], cache;
    }
    out := map[];
    var list := gh.ListRunners(key, env);
    if list.Some? {
      var rs := list.value;
      for i := 0 to |rs|
        invariant out == ByName(rs[..i], key.kind, env.prefix)
      {
        assert rs[..i + 1][..i] == rs[..i];
        if key.kind.Organization? || env.prefix <= rs[i].name {
          out := out[rs[i].name := rs[i]];
        }
      }
      assert rs[..|rs|] == rs;
    }
    cache' := cache[key := out];
  }

  /** The effect of one worker's outcome on the three stores. */
  ghost predicate Effect(n: string, w: W.Worker, p: Pod, k: Key, v: Health, env: Env, s: State, s': State) {
    && s'.workers == (if v.Retired? then
                        W.Update(s.workers, n, W.MarkFailed(FailNode(p, w), v.reason, Some(env.now), env.now))
                      else s.workers)
    && s'.pods == (if v.Retired? && n in s.pods && !env.kubeRefuses(CallKill, n) then
                     s.pods[n := s.pods[n].(deadlinePatched := true)]
                   else s.pods)
    && s'.gone == s.gone + if v.Retired? && v.runner.Some? then {Deleted(k.Target(), v.runner.value)} else {}
  }

  method FailAndCleanup(workers: W.WorkerTable, k8s: KubeClient, gh: GitHub, name: string, w: W.Worker, p: Pod,
                        key: Key, r: Option<Runner>, reason: W.Reason, env: Env)
    modifies workers, k8s`pods, gh
    ensures Effect(name, w, p, key, FailOutcome(key, r, reason, env), env,
                   old(View(workers, k8s, gh)), View(workers, k8s, gh))
  {
    if r.Some? {
      var ok := gh.DeleteRunner(key, r.value.id, env);
      if !ok {
        return;
      }
    }
    var node := p.node;
    if node == "" && w.node.Some? {
      node := w.node.value;
    }
    workers.MarkWorkerFailed(name, node, reason, Some(env.now), env.now);
    Kill(k8s, workers, name, env);
  }

  /** The decision tree, in the order of the source's cases. */
  method ClassifyWorker(workers: W.WorkerTable, jobs: Jobs.JobTable, k8s: KubeClient, gh: GitHub,
                        name: string, w: W.Worker, p: Pod, key: Key, r: Option<Runner>, env: Env)
    requires w.Active()
    modifies workers, k8s`pods, gh
    ensures Effect(name, w, p, key, Outcome(w, p, key, r, RanJob(jobs.rows, name), env), env,
                   old(View(workers, k8s, gh)), View(workers, k8s, gh))
  {
    var runnerStatus, runnerBusy := "", false;
    if r.Some? {
      runnerStatus, runnerBusy := r.value.status, r.value.busy;
    }
    var pendingAge := env.now - p.created;
    if w.status.Pending? {
      if pendingAge < POD_PENDING_TIMEOUT {
        return;
      }
      FailAndCleanup(workers, k8s, gh, name, w, p, key, r, W.PodStuckPending, env);
    } else if r.None? {
      var ran := jobs.ExistsForPod(name);
      assert ran == RanJob(jobs.rows, name);
      if ran {
        return;
      }
      if Young(w.runningAt, env.now, RUNNER_REGISTRATION_TIMEOUT) {
        return;
      }
      FailAndCleanup(workers, k8s, gh, name, w, p, key, r, W.RunnerNeverRegistered, env);
    } else if runnerStatus == "offline" {
      if Young(w.runningAt, env.now, RUNNER_REGISTRATION_TIMEOUT) {
        return;
      }
      FailAndCleanup(workers, k8s, gh, name, w, p, key, r, W.RunnerNeverRegistered, env);
    } else if runnerStatus == "online" && !runnerBusy {
      if Young(w.runningAt, env.now, RUNNER_PENDING_TIMEOUT) {
        return;
      }
      FailAndCleanup(workers, k8s, gh, name, w, p, key, r, W.RunnerIdle, env);
    } else if runnerStatus == "online" && runnerBusy {
      return;
    } else {
      if Young(w.runningAt, env.now, RUNNER_REGISTRATION_TIMEOUT) {
        return;
      }
      FailAndCleanup(workers, k8s, gh, name, w, p, key, r, W.RunnerNeverRegistered, env);
    }
  }

  /** What phase 3 was given, for the contracts of its inner methods. */
  datatype Check = Check(s: State, pods: Pods, snap: W.Rows, jobs: map<Id, Jobs.Job>, env: Env)

  /** The stores once the workers in `done` were checked. */
  ghost function Checked(c: Check, done: set<string>): State {
    State(HealthRows(done, c.s.workers, c.pods, c.snap, c.jobs, c.s.gone, c.env),
          HealthKilled(done, c.s.pods, c.pods, c.snap, c.jobs, c.s.gone, c.env),
          HealthGone(done, c.pods, c.snap, c.jobs, c.s.gone, c.env))
  }

  lemma CheckedNone(c: Check)
    ensures Checked(c, {}) == c.s
  {
  }

  lemma CheckedOneRow(c: Check, done: set<string>, n: string)
    requires n !in done && n in c.snap && n in c.pods
    ensures var v := HealthOf(n, c.pods, c.snap, c.jobs, c.s.gone, c.env);
      Checked(c, done + {n}).workers ==
      if v.Retired? then
        W.Update(Checked(c, done).workers, n,
                 W.MarkFailed(FailNode(c.pods[n], c.snap[n]), v.reason, Some(c.env.now), c.env.now))
      else Checked(c, done).workers
  {
  }

  lemma CheckedOnePod(c: Check, done: set<string>, n: string)
    requires n !in done && n in c.snap
    ensures var pods := Checked(c, done).pods;
      Checked(c, done + {n}).pods ==
      if HealthOf(n, c.pods, c.snap, c.jobs, c.s.gone, c.env).Retired? && n in pods && !c.env.kubeRefuses(CallKill, n)
      then pods[n := pods[n].(deadlinePatched := true)] else pods
  {
  }

  lemma CheckedOneRunner(c: Check, done: set<string>, n: string)
    requires n !in done && n in c.snap
    ensures var v := HealthOf(n, c.pods, c.snap, c.jobs, c.s.gone, c.env);
      Checked(c, done + {n}).gone ==
      Checked(c, done).gone +
      if v.Retired? && v.runner.Some? then {Deleted(KeyOf(c.snap[n]).Target(), v.runner.value)} else {}
  {
  }

  lemma CheckedOne(c: Check, done: set<string>, n: string, s': State)
    requires n !in done && n in c.snap && n in c.pods
    requires Effect(n, c.snap[n], c.pods[n], KeyOf(c.snap[n]), HealthOf(n, c.pods, c.snap, c.jobs, c.s.gone, c.env),
                    c.env, Checked(c, done), s')
    ensures s' == Checked(c, done + {n})
  {
    CheckedOneRow(c, done, n);
    CheckedOnePod(c, done, n);
    CheckedOneRunner(c, done, n);
  }

  lemma CheckedSkips(c: Check, done: set<string>, more: set<string>)
    requires forall n :: n in more && n in c.snap ==>
      HealthOf(n, c.pods, c.snap, c.jobs, c.s.gone, c.env).Untouched?
    ensures Checked(c, done + more) == Checked(c, done)
  {
    assert Checked(c, done + more).workers == Checked(c, done).workers;
    assert Checked(c, done + more).pods == Checked(c, done).pods;
    assert Checked(c, done + more).gone == Checked(c, done).gone;
  }

  /** Some listing of the scope made while phase 3 was deleting runners. */
  ghost predicate ListedDuring(m: map<string, Runner>, k: Key, c: Check, done: set<string>) {
    exists d: set<string> :: d <= done && m == Runners(c.env, k, Checked(c, d).gone)
  }

  lemma LookupDuring(m: map<string, Runner>, k: Key, c: Check, done: set<string>, n: string)
    requires Registry(c.env) && ListedDuring(m, k, c, done) && n !in done
    ensures Find(m, n) == Find(Runners(c.env, k, c.s.gone), n)
  {
    var d :| d <= done && m == Runners(c.env, k, Checked(c, d).gone);
    HealthDeletesOthers(d, c.pods, c.snap, c.jobs, c.s.gone, c.env, n);
    LookupStable(c.env, k, c.s.gone, Checked(c, d).gone, n);
  }

  predicate InScope(snap: W.Rows, n: string, k: Key) {
    n in snap && snap[n].Active() && KeyOf(snap[n]) == k
  }

  method CheckScope(workers: W.WorkerTable, jobs: Jobs.JobTable, k8s: KubeClient, gh: GitHub, key: Key, names: set<string>,
                    pods: Pods, snap: W.Rows, env: Env, cache: map<Key, map<string, Runner>>,
                    ghost c: Check, ghost done: set<string>)
    returns (cache': map<Key, map<string, Runner>>)
    requires Registry(env) && c == Check(c.s, pods, snap, jobs.rows, env)
    requires View(workers, k8s, gh) == Checked(c, done)
    requires key !in cache && names !! done && forall n :: n in names ==> InScope(snap, n, key)
    modifies workers, k8s`pods, gh
    ensures View(workers, k8s, gh) == Checked(c, done + names)
    ensures cache' == if env.auth(key) then cache[key := Runners(env, key, Checked(c, done).gone)] else cache
  {
    if !env.auth(key) {
      CheckedSkips(c, done, names);
      return cache;
    }
    var runners;
    runners, cache' := FetchGHRunners(gh, key, env, cache);
    CheckMembers(workers, jobs, k8s, gh, key, names, pods, snap, runners, env, c, done);
  }

  method CheckMembers(workers: W.WorkerTable, jobs: Jobs.JobTable, k8s: KubeClient, gh: GitHub, key: Key,
                      names: set<string>, pods: Pods, snap: W.Rows, runners: map<string, Runner>, env: Env,
                      ghost c: Check, ghost done: set<string>)
    requires Registry(env) && c == Check(c.s, pods, snap, jobs.rows, env) && env.auth(key)
    requires View(workers, k8s, gh) == Checked(c, done) && runners == Runners(env, key, Checked(c, done).gone)
    requires names !! done && forall n :: n in names ==> InScope(snap, n, key)
    modifies workers, k8s`pods, gh
    ensures View(workers, k8s, gh) == Checked(c, done + names)
  {
    var todo := names;
    NoneSeen(done, names);
    while todo != {}
      invariant todo <= names
      invariant View(workers, k8s, gh) == Checked(c, done + (names - todo))
      decreases |todo|
    {
      var name :| name in todo;
      OneMoreSeen(done, names, todo, name);
      CheckMember(workers, jobs, k8s, gh, key, name, pods, snap, runners, env, c, done, done + (names - todo));
      todo := todo - {name};
    }
    AllSeen(done, names);
  }

  // A loop over a set that has yet to visit `todo` has seen `base + (all - todo)`.

  lemma NoneSeen<T>(base: set<T>, all: set<T>)
    ensures base + (all - all) == base
  {
  }

  lemma AllSeen<T>(base: set<T>, all: set<T>)
    ensures base + (all - {}) == base + all
  {
  }

  lemma OneMoreSeen<T>(base: set<T>, all: set<T>, todo: set<T>, x: T)
    requires x in todo && todo <= all
    ensures base + (all - todo) + {x} == base + (all - (todo - {x}))
    ensures x in all && (x !in base ==> x !in base + (all - todo))
  {
  }

  method CheckMember(workers: W.WorkerTable, jobs: Jobs.JobTable, k8s: KubeClient, gh: GitHub, key: Key, name: string,
                     pods: Pods, snap: W.Rows, runners: map<string, Runner>, env: Env,
                     ghost c: Check, ghost listedAt: set<string>, ghost done: set<string>)
    requires Registry(env) && c == Check(c.s, pods, snap, jobs.rows, env) && env.auth(key)
    requires View(workers, k8s, gh) == Checked(c, done)
    requires listedAt <= done && runners == Runners(env, key, Checked(c, listedAt).gone)
    requires name !in done && InScope(snap, name, key)
    modifies workers, k8s`pods, gh
    ensures View(workers, k8s, gh) == Checked(c, done + {name})
  {
    if name !in pods {
      CheckedSkips(c, done, {name});
      return;
    }
    var r := Find(runners, name);
    LookupDuring(runners, key, c, listedAt, name);
    ClassifyWorker(workers, jobs, k8s, gh, name, snap[name], pods[name], key, r, env);
    CheckedOne(c, done, name, View(workers, k8s, gh));
  }

  ghost predicate Grouped(groups: map<Key, set<string>>, snap: W.Rows) {
    && (forall k, n :: k in groups && n in groups[k] <==> InScope(snap, n, k))
    && (forall k :: k in groups ==> groups[k] != {})
  }

  /** Active workers grouped by scope. */
  method GroupByScope(snap: W.Rows) returns (groups: map<Key, set<string>>)
    ensures Grouped(groups, snap)
  {
    groups := map[];
    var todo := snap.Keys;
    while todo != {}
      invariant todo <= snap.Keys
      invariant forall k, n :: k in groups && n in groups[k] <==> InScope(snap, n, k) && n !in todo
      invariant forall k :: k in groups ==> groups[k] != {}
      decreases |todo|
    {
      var name :| name in todo;
      if snap[name].status.Pending? || snap[name].status.Running? {
        var k := KeyOf(snap[name]);
        groups := groups[k := (if k in groups then groups[k] else {}) + {name}];
      }
      todo := todo - {name};
    }
  }

  /** The cache holds exactly the scopes in `keys` that could be authenticated, each as listed
      at some point of phase 3. */
  ghost predicate CacheOk(cache: map<Key, map<string, Runner>>, keys: set<Key>, c: Check, done: set<string>) {
    && (forall k :: k in cache <==> k in keys && c.env.auth(k))
    && (forall k :: k in cache ==> ListedDuring(cache[k], k, c, done))
  }

  ghost function Within(snap: W.Rows, keys: set<Key>): set<string> {
    set n | n in snap && snap[n].Active() && KeyOf(snap[n]) in keys
  }

  lemma CacheGrows(cache: map<Key, map<string, Runner>>, cache': map<Key, map<string, Runner>>, keys: set<Key>, key: Key,
                   c: Check, done: set<string>, done': set<string>)
    requires CacheOk(cache, keys, c, done) && done <= done'
    requires cache' == if c.env.auth(key) then cache[key := Runners(c.env, key, Checked(c, done).gone)] else cache
    ensures CacheOk(cache', keys + {key}, c, done')
  {
  }

  lemma AllWithin(c: Check, keys: set<Key>)
    requires forall n :: n in c.snap && c.snap[n].Active() ==> KeyOf(c.snap[n]) in keys
    ensures Checked(c, Within(c.snap, keys)) == Checked(c, c.snap.Keys)
  {
    var idle := c.snap.Keys - Within(c.snap, keys);
    CheckedSkips(c, Within(c.snap, keys), idle);
    assert Within(c.snap, keys) + idle == c.snap.Keys;
  }

  method VisitScope(workers: W.WorkerTable, jobs: Jobs.JobTable, k8s: KubeClient, gh: GitHub,
                    groups: map<Key, set<string>>, key: Key, pods: Pods, snap: W.Rows, env: Env,
                    cache: map<Key, map<string, Runner>>, ghost c: Check, ghost seen: set<Key>)
    returns (cache': map<Key, map<string, Runner>>)
    requires Registry(env) && c == Check(c.s, pods, snap, jobs.rows, env)
    requires Grouped(groups, snap) && key in groups && key !in seen
    requires View(workers, k8s, gh) == Checked(c, Within(snap, seen))
    requires CacheOk(cache, seen, c, Within(snap, seen))
    modifies workers, k8s`pods, gh
    ensures View(workers, k8s, gh) == Checked(c, Within(snap, seen + {key}))
    ensures CacheOk(cache', seen + {key}, c, Within(snap, seen + {key}))
  {
    WithinGrows(groups, snap, seen, key);
    ghost var done := Within(snap, seen);
    cache' := CheckScope(workers, jobs, k8s, gh, key, groups[key], pods, snap, env, cache, c, done);
    CacheGrows(cache, cache', seen, key, c, done, done + groups[key]);
  }

  method HealthChecks(workers: W.WorkerTable, jobs: Jobs.JobTable, k8s: KubeClient, gh: GitHub,
                      pods: Pods, snap: W.Rows, env: Env, ghost c: Check)
    returns (cache: map<Key, map<string, Runner>>)
    requires Registry(env) && c == Check(View(workers, k8s, gh), pods, snap, jobs.rows, env)
    modifies workers, k8s`pods, gh
    ensures View(workers, k8s, gh) == Checked(c, snap.Keys)
    ensures CacheOk(cache, CachedKeys(snap, env), c, snap.Keys)
  {
    var groups := GroupByScope(snap);
    cache := map[];
    var todo := groups.Keys;
    CheckedNone(c);
    assert Within(snap, {}) == {} && groups.Keys - todo == {};
    while todo != {}
      invariant todo <= groups.Keys
      invariant View(workers, k8s, gh) == Checked(c, Within(snap, groups.Keys - todo))
      invariant CacheOk(cache, groups.Keys - todo, c, Within(snap, groups.Keys - todo))
      decreases |todo|
    {
      var key :| key in todo;
      ghost var seen := groups.Keys - todo;
      cache := VisitScope(workers, jobs, k8s, gh, groups, key, pods, snap, env, cache, c, seen);
      todo := todo - {key};
      assert groups.Keys - todo == seen + {key};
    }
    assert groups.Keys - todo == groups.Keys;
    CachedScopes(groups, cache, c);
  }

  lemma WithinGrows(groups: map<Key, set<string>>, snap: W.Rows, seen: set<Key>, key: Key)
    requires Grouped(groups, snap)
    requires key in groups && key !in seen
    ensures Within(snap, seen + {key}) == Within(snap, seen) + groups[key]
    ensures Within(snap, seen) !! groups[key] && forall n :: n in groups[key] ==> InScope(snap, n, key)
  {
  }

  lemma CachedScopes(groups: map<Key, set<string>>, cache: map<Key, map<string, Runner>>, c: Check)
    requires Grouped(groups, c.snap)
    requires CacheOk(cache, groups.Keys, c, Within(c.snap, groups.Keys))
    ensures CacheOk(cache, CachedKeys(c.snap, c.env), c, c.snap.Keys)
    ensures Checked(c, Within(c.snap, groups.Keys)) == Checked(c, c.snap.Keys)
  {
    forall k | k in groups ensures exists n :: InScope(c.snap, n, k) {
      var n :| n in groups[k];
      assert InScope(c.snap, n, k);
    }
    forall n | n in c.snap && c.snap[n].Active() ensures KeyOf(c.snap[n]) in groups {
      assert InScope(c.snap, n, KeyOf(c.snap[n]));
    }
    AllWithin(c, groups.Keys);
    forall k | k in cache ensures ListedDuring(cache[k], k, c, c.snap.Keys) {
      assert ListedDuring(cache[k], k, c, Within(c.snap, groups.Keys));
      var d :| d <= Within(c.snap, groups.Keys) && cache[k] == Runners(c.env, k, Checked(c, d).gone);
      assert d <= c.snap.Keys;
    }
  }

  // ---- phase 4 ----

  ghost predicate ScopeDeletes(d: Deleted, key: Key, runners: map<string, Runner>, name: string, snap: W.Rows, env: Env) {
    && name in runners && Stale(name, snap, env.prefix) && !env.refuses(key, runners[name].id)
    && d == Deleted(key.Target(), runners[name].id)
  }

  /** The deletions GitHub accepts for the stale ones among `names`. */
  ghost function ScopeGone(key: Key, runners: map<string, Runner>, names: set<string>, snap: W.Rows, env: Env)
    : set<Deleted>
  {
    set name | name in names && name in runners && Stale(name, snap, env.prefix) && !env.refuses(key, runners[name].id) ::
      Deleted(key.Target(), runners[name].id)
  }

  lemma ScopeGoneStep(key: Key, runners: map<string, Runner>, todo: set<string>, name: string, snap: W.Rows, env: Env,
                      gone: set<Deleted>)
    requires name in todo && todo <= runners.Keys
    ensures var one := if Stale(name, snap, env.prefix) && !env.refuses(key, runners[name].id)
                       then {Deleted(key.Target(), runners[name].id)} else {};
      gone + ScopeGone(key, runners, runners.Keys - todo, snap, env) + one ==
      gone + ScopeGone(key, runners, runners.Keys - (todo - {name}), snap, env)
  {
    var one := if Stale(name, snap, env.prefix) && !env.refuses(key, runners[name].id)
               then {Deleted(key.Target(), runners[name].id)} else {};
    assert ScopeGone(key, runners, runners.Keys - (todo - {name}), snap, env) ==
           ScopeGone(key, runners, runners.Keys - todo, snap, env) + one;
  }

  method CleanupRunner(gh: GitHub, key: Key, name: string, r: Runner, snap: W.Rows, env: Env)
    modifies gh
    ensures gh.gone == old(gh.gone) +
      if Stale(name, snap, env.prefix) && !env.refuses(key, r.id) then {Deleted(key.Target(), r.id)} else {}
  {
    if env.prefix <= name {
      var known := name in snap;
      if known && (snap[name].status.Completed? || snap[name].status.Failed?) {
        var _ := gh.DeleteRunner(key, r.id, env);
      } else if !known {
        var _ := gh.DeleteRunner(key, r.id, env);
      }
    }
  }

  method CleanupScope(gh: GitHub, key: Key, runners: map<string, Runner>, snap: W.Rows, env: Env)
    modifies gh
    ensures gh.gone == old(gh.gone) + ScopeGone(key, runners, runners.Keys, snap, env)
  {
    var todo := runners.Keys;
    ghost var before := gh.gone;
    while todo != {}
      invariant todo <= runners.Keys
      invariant gh.gone == before + ScopeGone(key, runners, runners.Keys - todo, snap, env)
      decreases |todo|
    {
      var name :| name in todo;
      ScopeGoneStep(key, runners, todo, name, snap, env, before);
      CleanupRunner(gh, key, name, runners[name], snap, env);
      todo := todo - {name};
    }
    assert runners.Keys - {} == runners.Keys;
  }

  lemma ScopeGoneMember(d: Deleted, key: Key, runners: map<string, Runner>, snap: W.Rows, env: Env)
    ensures d in ScopeGone(key, runners, runners.Keys, snap, env) <==>
            exists name :: ScopeDeletes(d, key, runners, name, snap, env)
  {
    if d in ScopeGone(key, runners, runners.Keys, snap, env) {
      var name :| name in runners && Stale(name, snap, env.prefix) && !env.refuses(key, runners[name].id)
                  && d == Deleted(key.Target(), runners[name].id);
      assert ScopeDeletes(d, key, runners, name, snap, env);
    }
    if name :| ScopeDeletes(d, key, runners, name, snap, env) {
      assert name in runners.Keys;
    }
  }

  method GitHubCleanup(gh: GitHub, snap: W.Rows, cache: map<Key, map<string, Runner>>, env: Env)
    modifies gh
    ensures gh.gone == old(gh.gone) + CleanupGone(CleanupCalls(cache, snap, env), cache, env)
  {
    var todo := cache.Keys;
    while todo != {}
      invariant todo <= cache.Keys
      invariant forall d :: d in gh.gone <==>
        d in old(gh.gone) ||
        exists k, name :: k in cache && k !in todo && env.reauth(k) && ScopeDeletes(d, k, cache[k], name, snap, env)
      decreases |todo|
    {
      var key :| key in todo;
      if env.reauth(key) {
        CleanupScope(gh, key, cache[key], snap, env);
        forall d { ScopeGoneMember(d, key, cache[key], snap, env); }
      }
      todo := todo - {key};
    }
    ghost var calls := CleanupCalls(cache, snap, env);
    forall d ensures d in gh.gone <==> d in old(gh.gone) || d in CleanupGone(calls, cache, env) {
      CleanupMember(d, cache, snap, env);
    }
  }

  lemma CleanupMember(d: Deleted, cache: map<Key, map<string, Runner>>, snap: W.Rows, env: Env)
    ensures d in CleanupGone(CleanupCalls(cache, snap, env), cache, env) <==> SomeScopeDeletes(d, cache, snap, env)
  {
    var calls := CleanupCalls(cache, snap, env);
    if d in CleanupGone(calls, cache, env) {
      var call :| call in calls && call.0 in cache && call.1 in cache[call.0]
                  && !env.refuses(call.0, cache[call.0][call.1].id)
                  && d == Deleted(call.0.Target(), cache[call.0][call.1].id);
      assert ScopeDeletes(d, call.0, cache[call.0], call.1, snap, env);
    }
    if k, name :| k in cache && env.reauth(k) && ScopeDeletes(d, k, cache[k], name, snap, env) {
      assert (k, name) in calls;
    }
  }

  ghost function Ideal(c: Check): map<Key, map<string, Runner>> {
    map k | k in CachedKeys(c.snap, c.env) :: Runners(c.env, k, c.s.gone)
  }

  ghost predicate SomeScopeDeletes(d: Deleted, cache: map<Key, map<string, Runner>>, snap: W.Rows, env: Env) {
    exists k, name :: k in cache && env.reauth(k) && ScopeDeletes(d, k, cache[k], name, snap, env)
  }

  lemma SameDeletions(c: Check, cache: map<Key, map<string, Runner>>, snap: W.Rows, d: Deleted)
    requires Registry(c.env) && CacheOk(cache, CachedKeys(c.snap, c.env), c, c.snap.Keys)
    ensures SomeScopeDeletes(d, cache, snap, c.env) ==> SomeScopeDeletes(d, Ideal(c), snap, c.env)
    ensures SomeScopeDeletes(d, Ideal(c), snap, c.env) ==>
              d in Checked(c, c.snap.Keys).gone || SomeScopeDeletes(d, cache, snap, c.env)
  {
    if SomeScopeDeletes(d, cache, snap, c.env) {
      var k, name :| k in cache && c.env.reauth(k) && ScopeDeletes(d, k, cache[k], name, snap, c.env);
      SameAsIdeal(c, cache, k, name);
      assert ScopeDeletes(d, k, Ideal(c)[k], name, snap, c.env);
    }
    if SomeScopeDeletes(d, Ideal(c), snap, c.env) {
      var k, name :| k in Ideal(c) && c.env.reauth(k) && ScopeDeletes(d, k, Ideal(c)[k], name, snap, c.env);
      SameAsIdeal(c, cache, k, name);
      assert name in cache[k] ==> ScopeDeletes(d, k, cache[k], name, snap, c.env);
    }
  }

  /** Cleaning up from the cache of phase 3 leaves what cleaning up from listings all taken
      when phase 3 began would leave. */
  lemma CleanupFromIdealCache(c: Check, cache: map<Key, map<string, Runner>>, snap: W.Rows)
    requires Registry(c.env) && CacheOk(cache, CachedKeys(c.snap, c.env), c, c.snap.Keys)
    ensures var gone := Checked(c, c.snap.Keys).gone;
      gone + CleanupGone(CleanupCalls(cache, snap, c.env), cache, c.env) ==
      gone + CleanupGone(CleanupCalls(Ideal(c), snap, c.env), Ideal(c), c.env)
  {
    var gone := Checked(c, c.snap.Keys).gone;
    var a := CleanupGone(CleanupCalls(cache, snap, c.env), cache, c.env);
    var b := CleanupGone(CleanupCalls(Ideal(c), snap, c.env), Ideal(c), c.env);
    forall d ensures d in gone + a <==> d in gone + b {
      CleanupMember(d, cache, snap, c.env);
      CleanupMember(d, Ideal(c), snap, c.env);
      SameDeletions(c, cache, snap, d);
    }
  }

  lemma SameAsIdeal(c: Check, cache: map<Key, map<string, Runner>>, k: Key, name: string)
    requires Registry(c.env) && CacheOk(cache, CachedKeys(c.snap, c.env), c, c.snap.Keys)
    requires k in CachedKeys(c.snap, c.env)
    ensures k in cache
    ensures var ideal := Runners(c.env, k, c.s.gone);
      && (name in cache[k] ==> name in ideal && cache[k][name] == ideal[name])
      && (name in ideal && name !in cache[k] ==> Deleted(k.Target(), ideal[name].id) in Checked(c, c.snap.Keys).gone)
  {
    assert ListedDuring(cache[k], k, c, c.snap.Keys);
    var d :| d <= c.snap.Keys && cache[k] == Runners(c.env, k, Checked(c, d).gone);
    if name in cache[k] {
      EarlyListing(c.env, k, c.s.gone, Checked(c, d).gone, name);
    }
    if name in Runners(c.env, k, c.s.gone) {
      LateListing(c.env, k, c.s.gone, Checked(c, d).gone, name);
    }
    assert Checked(c, d).gone <= Checked(c, c.snap.Keys).gone;
  }

  // ---- phase 5 ----

  method DeleteTerminalPods(k8s: KubeClient, workers: W.WorkerTable, pods: Pods, env: Env)
    requires forall n :: n in pods && pods[n].phase.Terminal() ==> NoActiveRow(workers.rows, n)
    modifies k8s`pods
    ensures k8s.pods == old(k8s.pods) - ExpiredPods(pods, env)
  {
    var todo := pods.Keys;
    ghost var expired := ExpiredPods(pods, env);
    while todo != {}
      invariant todo <= pods.Keys
      invariant k8s.pods == old(k8s.pods) - (expired - todo)
      decreases |todo|
    {
      var name :| name in todo;
      var p := pods[name];
      DropOne(old(k8s.pods), expired, todo, name);
      todo := todo - {name};
      if p.phase.PodSucceeded? || p.phase.PodFailed? {
        var finished := FinishedAt(p);
        var at := if finished.Some? then finished.value else p.created;
        if env.now - at >= POD_DELETE_GRACE {
          Delete(k8s, workers, name, CallDelete, env);
        }
      }
    }
    assert expired - {} == expired;
  }

  // ---- the pipeline ----

  method IndexNodes(nodes: seq<KubeNode>) returns (byName: map<string, KubeNode>)
    ensures byName == NodesByName(nodes)
  {
    byName := map[];
    for i := 0 to |nodes|
      invariant byName == NodesByName(nodes[..i])
    {
      assert nodes[..i + 1][..i] == nodes[..i];
      byName := byName[nodes[i].name := nodes[i]];
    }
    assert nodes[..|nodes|] == nodes;
  }

  method ReadWorkers(workers: W.WorkerTable, env: Env) returns (snap: W.Rows)
    ensures snap == W.Snapshot(workers.rows, env.now, LOOKBACK)
  {
    snap := workers.GetWorkersForReconcile(env.now, LOOKBACK);
  }

  /** Phases 1 and 2 and the unreachable-node check. */
  method FollowPods(workers: W.WorkerTable, k8s: KubeClient, gh: GitHub, pods: Pods, nodes: map<string, KubeNode>, env: Env)
    requires env.nodes.Some? && nodes == NodesByName(env.nodes.value) && pods == k8s.pods
    modifies workers, k8s`pods
    ensures View(workers, k8s, gh) == AfterUnreachable(old(View(workers, k8s, gh)), env)
  {
    var snap := ReadWorkers(workers, env);
    OrphanSweep(workers, pods, snap, env.now);
    PodPhaseSync(workers, pods, snap, env.now);
    assert workers.rows == AfterPhase2(old(View(workers, k8s, gh)), env);
    snap := ReadWorkers(workers, env);
    UnreachableNodeCheck(workers, k8s, pods, snap, nodes, env);
  }

  /** A finished pod's worker is retired once phase 2 ran, and stays so. */
  lemma FinishedPodsAreRetired(s: State, jobs: map<Id, Jobs.Job>, env: Env, n: string)
    requires env.nodes.Some? && env.podsListed && n in s.pods && s.pods[n].phase.Terminal()
    ensures NoActiveRow(SyncRows(s, jobs, env), n)
  {
    var u := AfterUnreachable(s, env);
    if n in u.workers {
      HealthRow(u, s.pods, jobs, env, n);
      AfterUnreachableRow(s, env, n);
    }
  }

  method SyncWorkersState(workers: W.WorkerTable, jobs: Jobs.JobTable, k8s: KubeClient, gh: GitHub, env: Env)
    requires Registry(env)
    modifies workers, k8s`pods, gh
    ensures View(workers, k8s, gh) == Sync(old(View(workers, k8s, gh)), jobs.rows, env)
  {
    if env.nodes.None? {
      return;
    }
    var nodes := IndexNodes(env.nodes.value);
    if !env.podsListed {
      return;
    }
    ghost var s := View(workers, k8s, gh);
    var pods := k8s.pods;
    FollowPods(workers, k8s, gh, pods, nodes, env);
    ghost var u := View(workers, k8s, gh);
    var snap := ReadWorkers(workers, env);
    ghost var c := Check(u, pods, snap, jobs.rows, env);
    var cache := HealthChecks(workers, jobs, k8s, gh, pods, snap, env, c);
    assert View(workers, k8s, gh) == AfterHealth(u, pods, jobs.rows, env);
    snap := ReadWorkers(workers, env);
    GitHubCleanup(gh, snap, cache, env);
    CleanupFromIdealCache(c, cache, snap);
    assert Ideal(c) == IdealCache(u, env);
    forall n | n in pods && pods[n].phase.Terminal() ensures NoActiveRow(workers.rows, n) {
      FinishedPodsAreRetired(s, jobs.rows, env, n);
    }
    DeleteTerminalPods(k8s, workers, pods, env);
  }
}
