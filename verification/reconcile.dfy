/** syncWorkersState (scheduler/sync_workers.go): five phases over one pod snapshot, each
    reading its own snapshot of the worker rows, in whatever order the maps are ranged over.

    The functions are the phases as they act on all names at once; the methods carry the
    source's loops.  `now` is the one clock of a tick. */
module Reconcile {
  import opened Base
  import opened Cluster
  import Jobs
  import W = Workers

  const RUNNER_REGISTRATION_TIMEOUT := 120
  const RUNNER_PENDING_TIMEOUT := 600
  const POD_PENDING_TIMEOUT := 600
  const POD_DELETE_GRACE := 21600
  const LOOKBACK: nat := 3600

  // ---- GitHub's side ----

  datatype Runner = Runner(id: Id, name: string, status: string, busy: bool)

  /** orgRunnerKey: one GitHub scope, as seen through one installation. */
  datatype Key = Key(installation: Id, kind: EntityType, entity: Id, entityName: string, repo: string) {
    function Target(): Scope { Scope(kind, if kind.Organization? then entityName else repo) }
  }

  /** Where runners are registered: an organization or a repository. */
  datatype Scope = Scope(kind: EntityType, name: string)

  datatype Deleted = Deleted(target: Scope, id: Id)

  datatype KubeNode = KubeNode(name: string, taints: seq<string>) {
    predicate Unreachable() { "node.kubernetes.io/unreachable" in taints }
  }

  /** The calls that end a pod. */
  datatype PodCall = CallKill | CallForceDelete | CallDelete

  /** Every outside answer of one tick. */
  datatype Env = Env(
    now: int, prefix: string,
    nodes: Option<seq<KubeNode>>, podsListed: bool,
    auth: Key -> bool, reauth: Key -> bool, listing: Key -> Option<seq<Runner>>, refuses: (Key, Id) -> bool,
    kubeRefuses: (PodCall, string) -> bool)

  /** GitHub: names are unique in a scope, and an id names one runner per target. */
  ghost predicate Registry(env: Env) {
    && (forall k, r, r' | Lists(env, k, r) && Lists(env, k, r') && r.name == r'.name :: r == r')
    && (forall k, k', r, r' | Lists(env, k, r) && Lists(env, k', r') && k.Target() == k'.Target() && r.id == r'.id ::
          r.name == r'.name)
  }

  predicate Lists(env: Env, k: Key, r: Runner) {
    env.listing(k).Some? && r in env.listing(k).value
  }

  function KeyOf(w: W.Worker): Key {
    Key(w.installation, w.kind, w.entity, w.entityName,
        if w.kind.User? && w.repo.Some? then w.repo.value else "")
  }

  /** What the API lists: the answer without the runners deleted meanwhile. */
  function Listed(rs: seq<Runner>, t: Scope, gone: set<Deleted>): seq<Runner> {
    if rs == [] then []
    else
      var last := rs[|rs| - 1];
      Listed(rs[..|rs| - 1], t, gone) + if Deleted(t, last.id) in gone then [] else [last]
  }

  /** fetchGHRunners keeps the last runner of each name; repositories are filtered by prefix. */
  function ByName(rs: seq<Runner>, kind: EntityType, prefix: string): map<string, Runner> {
    if rs == [] then map[]
    else
      var m, last := ByName(rs[..|rs| - 1], kind, prefix), rs[|rs| - 1];
      if kind.User? && !(prefix <= last.name) then m else m[last.name := last]
  }

  /** The cache entry of a scope; a failed listing is an empty one. */
  function Runners(env: Env, k: Key, gone: set<Deleted>): map<string, Runner> {
    if env.listing(k).None? then map[]
    else ByName(Listed(env.listing(k).value, k.Target(), gone), k.kind, env.prefix)
  }

  function Find(m: map<string, Runner>, name: string): Option<Runner> {
    if name in m then Some(m[name]) else None
  }

  // ---- the phases ----

  /** Phase 1: workers without a pod. */
  predicate Orphaned(n: string, pods: Pods, snap: W.Rows) {
    n in snap && n !in pods && snap[n].Active()
  }

  function SweptRows(rows: W.Rows, pods: Pods, snap: W.Rows, now: int): W.Rows {
    map n | n in rows :: if Orphaned(n, pods, snap) then W.Apply(rows[n], W.MarkOrphaned(now)) else rows[n]
  }

  /** Phase 2: the write a pod's phase calls for, judged on the snapshot row. */
  function PhaseWrite(p: Pod, w: W.Worker, now: int): Option<W.Write> {
    if p.phase.PodRunning? && w.status.Pending? then Some(W.MarkRunning(p.node, RunnerStartedAt(p), now))
    else if p.phase.PodSucceeded? && w.Active() then
      Some(W.MarkCompleted(p.node, Latest(p.containers + p.initContainers), now))
    else if p.phase.PodFailed? && w.Active() then
      Some(W.MarkFailed(p.node, W.PodFailed, Latest(p.containers + p.initContainers), now))
    else None
  }

  function PhaseRow(w: W.Worker, p: Pod, seen: W.Worker, now: int): W.Worker {
    if PhaseWrite(p, seen, now).Some? then W.Apply(w, PhaseWrite(p, seen, now).value) else w
  }

  function PhasedRows(rows: W.Rows, pods: Pods, snap: W.Rows, now: int): W.Rows {
    map n | n in rows :: if n in pods && n in snap then PhaseRow(rows[n], pods[n], snap[n], now) else rows[n]
  }

  function NodesByName(nodes: seq<KubeNode>): map<string, KubeNode> {
    if nodes == [] then map[]
    else NodesByName(nodes[..|nodes| - 1])[nodes[|nodes| - 1].name := nodes[|nodes| - 1]]
  }

  predicate OnUnreachable(p: Pod, nodes: map<string, KubeNode>) {
    p.node != "" && p.node in nodes && nodes[p.node].Unreachable()
  }

  predicate Stranded(n: string, pods: Pods, snap: W.Rows, nodes: map<string, KubeNode>) {
    n in snap && snap[n].Active() && n in pods && OnUnreachable(pods[n], nodes)
  }

  function UnreachableRows(rows: W.Rows, pods: Pods, snap: W.Rows, nodes: map<string, KubeNode>, now: int): W.Rows {
    map n | n in rows ::
      if Stranded(n, pods, snap, nodes)
      then W.Apply(rows[n], W.MarkFailed(pods[n].node, W.NodeUnreachable, Some(now), now)) else rows[n]
  }

  function ForceDeleted(pods: Pods, snap: W.Rows, nodes: map<string, KubeNode>, env: Env): set<string> {
    set n | n in pods && Stranded(n, pods, snap, nodes) && !env.kubeRefuses(CallForceDelete, n)
  }

  /** Phase 3: what the decision tree says about one active worker. */
  datatype Decision = Keep | Fail(reason: W.Reason)

  /** `AgeSeconds(t) < limit`; an unset time is never young. */
  predicate Young(t: Option<int>, now: int, limit: int) { t.Some? && now - t.value < limit }

  function Decide(w: W.Worker, p: Pod, r: Option<Runner>, ranJob: bool, now: int): Decision {
    if w.status.Pending? then
      if now - p.created < POD_PENDING_TIMEOUT then Keep else Fail(W.PodStuckPending)
    else if r.None? then
      if ranJob || Young(w.runningAt, now, RUNNER_REGISTRATION_TIMEOUT) then Keep else Fail(W.RunnerNeverRegistered)
    else if r.value.status == "online" then
      if r.value.busy || Young(w.runningAt, now, RUNNER_PENDING_TIMEOUT) then Keep else Fail(W.RunnerIdle)
    else
      if Young(w.runningAt, now, RUNNER_REGISTRATION_TIMEOUT) then Keep else Fail(W.RunnerNeverRegistered)
  }

  predicate RanJob(jobs: map<Id, Jobs.Job>, pod: string) {
    exists id :: id in jobs && jobs[id].pod == Some(pod)
  }

  /** Retired carries the runner deleted on the way, if there was one. */
  datatype Health = Untouched | Kept | Refused | Retired(reason: W.Reason, runner: Option<Id>)

  function Outcome(w: W.Worker, p: Pod, k: Key, r: Option<Runner>, ranJob: bool, env: Env): Health {
    match Decide(w, p, r, ranJob, env.now)
    case Keep => Kept
    case Fail(reason) => FailOutcome(k, r, reason, env)
  }

  /** GitHub has the last word: a runner it will not delete may be running a job. */
  function FailOutcome(k: Key, r: Option<Runner>, reason: W.Reason, env: Env): Health {
    if r.None? then Retired(reason, None)
    else if env.refuses(k, r.value.id) then Refused
    else Retired(reason, Some(r.value.id))
  }

  function HealthOf(n: string, pods: Pods, snap: W.Rows, jobs: map<Id, Jobs.Job>, gone: set<Deleted>, env: Env): Health
    requires n in snap
  {
    var k := KeyOf(snap[n]);
    if !snap[n].Active() || !env.auth(k) || n !in pods then Untouched
    else Outcome(snap[n], pods[n], k, Find(Runners(env, k, gone), n), RanJob(jobs, n), env)
  }

  function FailNode(p: Pod, w: W.Worker): string {
    if p.node == "" && w.node.Some? then w.node.value else p.node
  }

  /** The effect of the health checks on the names in `done`. */
  function HealthRows(done: set<string>, rows: W.Rows, pods: Pods, snap: W.Rows, jobs: map<Id, Jobs.Job>,
                      gone: set<Deleted>, env: Env): W.Rows {
    map n | n in rows ::
      if n in done && n in snap && n in pods && HealthOf(n, pods, snap, jobs, gone, env).Retired? then
        W.Apply(rows[n], W.MarkFailed(FailNode(pods[n], snap[n]), HealthOf(n, pods, snap, jobs, gone, env).reason,
                                      Some(env.now), env.now))
      else rows[n]
  }

  function HealthKilled(done: set<string>, cluster: Pods, pods: Pods, snap: W.Rows, jobs: map<Id, Jobs.Job>,
                        gone: set<Deleted>, env: Env): Pods {
    map n | n in cluster ::
      if n in done && n in snap && HealthOf(n, pods, snap, jobs, gone, env).Retired? && !env.kubeRefuses(CallKill, n)
      then cluster[n].(deadlinePatched := true) else cluster[n]
  }

  function HealthGone(done: set<string>, pods: Pods, snap: W.Rows, jobs: map<Id, Jobs.Job>,
                      gone: set<Deleted>, env: Env): set<Deleted> {
    gone + set n | n in done && n in snap && HealthOf(n, pods, snap, jobs, gone, env).Retired?
                   && HealthOf(n, pods, snap, jobs, gone, env).runner.Some? ::
             Deleted(KeyOf(snap[n]).Target(), HealthOf(n, pods, snap, jobs, gone, env).runner.value)
  }

  /** The scopes whose listing phase 3 leaves in the cache. */
  function CachedKeys(snap: W.Rows, env: Env): set<Key> {
    set n | n in snap && snap[n].Active() && env.auth(KeyOf(snap[n])) :: KeyOf(snap[n])
  }

  /** Phase 4: delete a cached runner of ours unless its worker is active. */
  predicate Stale(name: string, snap: W.Rows, prefix: string) {
    prefix <= name && !(name in snap && snap[name].Active())
  }

  function CleanupCalls(cache: map<Key, map<string, Runner>>, snap: W.Rows, env: Env): set<(Key, string)> {
    set k, name | k in cache && env.reauth(k) && name in cache[k] && Stale(name, snap, env.prefix) :: (k, name)
  }

  function CleanupGone(calls: set<(Key, string)>, cache: map<Key, map<string, Runner>>, env: Env): set<Deleted> {
    set c | c in calls && c.0 in cache && c.1 in cache[c.0] && !env.refuses(c.0, cache[c.0][c.1].id) ::
      Deleted(c.0.Target(), cache[c.0][c.1].id)
  }

  /** Phase 5: terminal pods past the grace window. */
  predicate Expired(p: Pod, now: int) {
    p.phase.Terminal() && now - Or(Latest(p.containers + p.initContainers), p.created) >= POD_DELETE_GRACE
  }

  function ExpiredPods(pods: Pods, env: Env): set<string> {
    set n | n in pods && Expired(pods[n], env.now) && !env.kubeRefuses(CallDelete, n)
  }

  // ---- the pipeline ----

  datatype State = State(workers: W.Rows, pods: Pods, gone: set<Deleted>)

  function AfterPhase2(s: State, env: Env): W.Rows {
    var snap := W.Snapshot(s.workers, env.now, LOOKBACK);
    PhasedRows(SweptRows(s.workers, s.pods, snap, env.now), s.pods, snap, env.now)
  }

  function AfterUnreachable(s: State, env: Env): State
    requires env.nodes.Some?
  {
    var rows, nodes := AfterPhase2(s, env), NodesByName(env.nodes.value);
    var snap := W.Snapshot(rows, env.now, LOOKBACK);
    State(UnreachableRows(rows, s.pods, snap, nodes, env.now), s.pods - ForceDeleted(s.pods, snap, nodes, env), s.gone)
  }

  /** `pods` is the snapshot taken before phase 1. */
  function AfterHealth(s: State, pods: Pods, jobs: map<Id, Jobs.Job>, env: Env): State {
    var snap := W.Snapshot(s.workers, env.now, LOOKBACK);
    State(HealthRows(snap.Keys, s.workers, pods, snap, jobs, s.gone, env),
          HealthKilled(snap.Keys, s.pods, pods, snap, jobs, s.gone, env),
          HealthGone(snap.Keys, pods, snap, jobs, s.gone, env))
  }

  /** The cache as it would be had every scope been listed when phase 3 began. */
  function IdealCache(s: State, env: Env): map<Key, map<string, Runner>> {
    var snap := W.Snapshot(s.workers, env.now, LOOKBACK);
    map k | k in CachedKeys(snap, env) :: Runners(env, k, s.gone)
  }

  function Sync(s: State, jobs: map<Id, Jobs.Job>, env: Env): State {
    if env.nodes.None? || !env.podsListed then s
    else
      var u := AfterUnreachable(s, env);
      var h := AfterHealth(u, s.pods, jobs, env);
      var cache := IdealCache(u, env);
      var calls := CleanupCalls(cache, W.Snapshot(h.workers, env.now, LOOKBACK), env);
      State(h.workers, h.pods - ExpiredPods(s.pods, env), h.gone + CleanupGone(calls, cache, env))
  }

  // ---- rows only move forward ----

  ghost predicate RowsOk(rows: W.Rows) {
    forall n :: n in rows ==> W.RowOk(rows[n])
  }

  /** No row appears or vanishes; terminal rows are untouched, set columns keep their value. */
  ghost predicate Forward(rows: W.Rows, rows': W.Rows) {
    && rows'.Keys == rows.Keys
    && forall n :: n in rows ==> W.Evolves(rows[n], rows'[n]) && W.RowOk(rows'[n])
  }

  lemma PhasesForward(rows: W.Rows, pods: Pods, snap: W.Rows, now: int)
    requires RowsOk(rows)
    ensures Forward(rows, SweptRows(rows, pods, snap, now))
    ensures Forward(rows, PhasedRows(rows, pods, snap, now))
  {
    forall n | n in rows
      ensures W.Evolves(rows[n], SweptRows(rows, pods, snap, now)[n]) && W.RowOk(SweptRows(rows, pods, snap, now)[n])
      ensures W.Evolves(rows[n], PhasedRows(rows, pods, snap, now)[n]) && W.RowOk(PhasedRows(rows, pods, snap, now)[n])
    {
      OneWrite(rows[n], W.MarkOrphaned(now));
      if n in pods && n in snap && PhaseWrite(pods[n], snap[n], now).Some? {
        OneWrite(rows[n], PhaseWrite(pods[n], snap[n], now).value);
      }
    }
  }

  lemma OneWrite(w: W.Worker, u: W.Write)
    requires W.RowOk(w)
    ensures W.Evolves(w, w) && W.Evolves(w, W.Apply(w, u)) && W.RowOk(W.Apply(w, u))
  {
  }

  lemma UnreachableForward(rows: W.Rows, pods: Pods, snap: W.Rows, nodes: map<string, KubeNode>, now: int)
    requires RowsOk(rows)
    ensures Forward(rows, UnreachableRows(rows, pods, snap, nodes, now))
  {
  }

  lemma HealthForward(done: set<string>, rows: W.Rows, pods: Pods, snap: W.Rows, jobs: map<Id, Jobs.Job>,
                      gone: set<Deleted>, env: Env)
    requires RowsOk(rows)
    ensures Forward(rows, HealthRows(done, rows, pods, snap, jobs, gone, env))
  {
  }

  lemma ForwardTransitive(a: W.Rows, b: W.Rows, c: W.Rows)
    requires Forward(a, b) && Forward(b, c)
    ensures Forward(a, c)
  {
  }

  lemma Phase2Forward(s: State, env: Env)
    requires RowsOk(s.workers)
    ensures Forward(s.workers, AfterPhase2(s, env))
  {
    var snap := W.Snapshot(s.workers, env.now, LOOKBACK);
    var rows1 := SweptRows(s.workers, s.pods, snap, env.now);
    PhasesForward(s.workers, s.pods, snap, env.now);
    PhasesForward(rows1, s.pods, snap, env.now);
    ForwardTransitive(s.workers, rows1, AfterPhase2(s, env));
  }

  lemma AfterUnreachableForward(s: State, env: Env)
    requires RowsOk(s.workers) && env.nodes.Some?
    ensures Forward(s.workers, AfterUnreachable(s, env).workers)
  {
    var rows := AfterPhase2(s, env);
    Phase2Forward(s, env);
    UnreachableForward(rows, s.pods, W.Snapshot(rows, env.now, LOOKBACK), NodesByName(env.nodes.value), env.now);
    ForwardTransitive(s.workers, rows, AfterUnreachable(s, env).workers);
  }

  /** The rows a whole run leaves. */
  function SyncRows(s: State, jobs: map<Id, Jobs.Job>, env: Env): W.Rows {
    if env.nodes.None? || !env.podsListed then s.workers
    else AfterHealth(AfterUnreachable(s, env), s.pods, jobs, env).workers
  }

  lemma SyncForward(s: State, jobs: map<Id, Jobs.Job>, env: Env)
    requires RowsOk(s.workers)
    ensures Forward(s.workers, Sync(s, jobs, env).workers)
  {
    assert Sync(s, jobs, env).workers == SyncRows(s, jobs, env);
    SyncRowsForward(s, jobs, env);
  }

  lemma SyncRowsForward(s: State, jobs: map<Id, Jobs.Job>, env: Env)
    requires RowsOk(s.workers)
    ensures Forward(s.workers, SyncRows(s, jobs, env))
  {
    if env.nodes.Some? && env.podsListed {
      var u := AfterUnreachable(s, env);
      AfterUnreachableForward(s, env);
      var snap := W.Snapshot(u.workers, env.now, LOOKBACK);
      HealthForward(snap.Keys, u.workers, s.pods, snap, jobs, u.gone, env);
      ForwardTransitive(s.workers, u.workers, SyncRows(s, jobs, env));
    } else {
      forall n | n in s.workers ensures W.Evolves(s.workers[n], s.workers[n]) {
        OneWrite(s.workers[n], W.MarkOrphaned(env.now));
      }
    }
  }

  // ---- phases read stale rows, harmlessly ----

  /** Phase 2 judges on the rows read before phase 1, with the effect of a fresh read,
      whatever the two lookbacks. */
  lemma StaleSnapshotIsHarmless(rows: W.Rows, pods: Pods, now: int, stale: nat, fresh': nat)
    ensures var snap := W.Snapshot(rows, now, stale);
      var swept := SweptRows(rows, pods, snap, now);
      PhasedRows(swept, pods, snap, now) == PhasedRows(swept, pods, W.Snapshot(swept, now, fresh'), now)
  {
  }

  // ---- agreement after the pipeline ----

  /** What the pipeline guarantees about one active row. */
  ghost predicate Agrees(w: W.Worker, n: string, pods: Pods, nodes: map<string, KubeNode>) {
    && n in pods
    && !pods[n].phase.Terminal()
    && (w.status.Pending? ==> !pods[n].phase.PodRunning?)
    && !OnUnreachable(pods[n], nodes)
  }

  lemma Phase2Row(s: State, env: Env, n: string)
    requires n in s.workers && AfterPhase2(s, env)[n].Active()
    ensures s.workers[n].Active() && n in s.pods && !s.pods[n].phase.Terminal()
    ensures AfterPhase2(s, env)[n].status.Pending? ==> !s.pods[n].phase.PodRunning?
  {
  }

  lemma AfterUnreachableRow(s: State, env: Env, n: string)
    requires env.nodes.Some? && n in s.workers
    ensures n in AfterUnreachable(s, env).workers
    ensures var w := AfterUnreachable(s, env).workers[n];
      w.Active() ==> w == AfterPhase2(s, env)[n] && Agrees(w, n, s.pods, NodesByName(env.nodes.value))
  {
    var rows, nodes := AfterPhase2(s, env), NodesByName(env.nodes.value);
    var snap := W.Snapshot(rows, env.now, LOOKBACK);
    assert n in rows;
    if rows[n].Active() {
      Phase2Row(s, env, n);
      assert n in snap && snap[n] == rows[n];
    }
  }

  lemma HealthRow(s: State, pods: Pods, jobs: map<Id, Jobs.Job>, env: Env, n: string)
    requires n in s.workers
    ensures n in AfterHealth(s, pods, jobs, env).workers
    ensures var w := AfterHealth(s, pods, jobs, env).workers[n];
      var snap := W.Snapshot(s.workers, env.now, LOOKBACK);
      w.Active() ==> w == s.workers[n] && n in snap && snap[n] == w
                     && (n in pods ==> !HealthOf(n, pods, snap, jobs, s.gone, env).Retired?)
  {
  }

  /** Every row that is still active has a pod in the snapshot; no such pod has finished, none
      of a pending row's runs, and none sits on a listed unreachable node. */
  lemma PostReconcileAgreement(s: State, jobs: map<Id, Jobs.Job>, env: Env, n: string)
    requires env.nodes.Some? && env.podsListed
    requires n in Sync(s, jobs, env).workers && Sync(s, jobs, env).workers[n].Active()
    ensures n in s.workers && s.workers[n].Active()
    ensures Agrees(Sync(s, jobs, env).workers[n], n, s.pods, NodesByName(env.nodes.value))
    ensures n in Sync(s, jobs, env).pods && Sync(s, jobs, env).pods[n] == s.pods[n]
  {
    var u := AfterUnreachable(s, env);
    assert n in s.workers;
    HealthRow(u, s.pods, jobs, env, n);
    AfterUnreachableRow(s, env, n);
    Phase2Row(s, env, n);
    var h := AfterHealth(u, s.pods, jobs, env);
    assert n in u.pods by {
      assert !OnUnreachable(s.pods[n], NodesByName(env.nodes.value));
    }
    assert h.pods[n] == u.pods[n];
    assert n !in ExpiredPods(s.pods, env);
  }

  /** A pod the pipeline patched or removed has, afterwards, a row that is terminal or absent. */
  lemma LostPodsAreRetired(s: State, jobs: map<Id, Jobs.Job>, env: Env, n: string)
    requires n in s.pods
    requires n in Sync(s, jobs, env).pods ==> Sync(s, jobs, env).pods[n] != s.pods[n]
    ensures n in Sync(s, jobs, env).workers ==> !Sync(s, jobs, env).workers[n].Active()
  {
    if env.nodes.Some? && env.podsListed && n in Sync(s, jobs, env).workers {
      if Sync(s, jobs, env).workers[n].Active() {
        PostReconcileAgreement(s, jobs, env, n);
      }
    }
  }

  // ---- runner lookups are stable under deletions of other names ----

  lemma {:induction false} ListedMembers(rs: seq<Runner>, t: Scope, gone: set<Deleted>)
    ensures forall r :: r in Listed(rs, t, gone) <==> r in rs && Deleted(t, r.id) !in gone
  {
    if rs != [] {
      ListedMembers(rs[..|rs| - 1], t, gone);
      assert rs == rs[..|rs| - 1] + [rs[|rs| - 1]];
    }
  }

  lemma {:induction false} ByNameMembers(rs: seq<Runner>, kind: EntityType, prefix: string)
    ensures forall name :: name in ByName(rs, kind, prefix) ==>
              && ByName(rs, kind, prefix)[name] in rs && ByName(rs, kind, prefix)[name].name == name
              && (kind.Organization? || prefix <= name)
    ensures forall r :: r in rs && (kind.Organization? || prefix <= r.name) ==> r.name in ByName(rs, kind, prefix)
  {
    if rs != [] {
      ByNameMembers(rs[..|rs| - 1], kind, prefix);
      assert rs == rs[..|rs| - 1] + [rs[|rs| - 1]];
    }
  }

  /** One more listed runner changes the lookup of its own name only. */
  lemma FindAppend(rs: seq<Runner>, last: Runner, kind: EntityType, prefix: string, n: string)
    ensures Find(ByName(rs + [last], kind, prefix), n) ==
            if last.name == n && (kind.Organization? || prefix <= n) then Some(last) else Find(ByName(rs, kind, prefix), n)
  {
  }

  lemma ListedUnfolds(before: seq<Runner>, last: Runner, t: Scope, gone: set<Deleted>)
    ensures Listed(before + [last], t, gone) ==
            if Deleted(t, last.id) in gone then Listed(before, t, gone) else Listed(before, t, gone) + [last]
  {
  }

  lemma {:induction false} FindIgnoresOthers(
    rs: seq<Runner>, t: Scope, gone: set<Deleted>, gone': set<Deleted>, kind: EntityType, prefix: string, n: string)
    requires forall r :: r in rs && r.name == n ==> (Deleted(t, r.id) in gone <==> Deleted(t, r.id) in gone')
    ensures Find(ByName(Listed(rs, t, gone), kind, prefix), n) == Find(ByName(Listed(rs, t, gone'), kind, prefix), n)
  {
    if rs != [] {
      var before, last := rs[..|rs| - 1], rs[|rs| - 1];
      assert rs == before + [last];
      FindIgnoresOthers(before, t, gone, gone', kind, prefix, n);
      ListedUnfolds(before, last, t, gone);
      ListedUnfolds(before, last, t, gone');
      FindAppend(Listed(before, t, gone), last, kind, prefix, n);
      FindAppend(Listed(before, t, gone'), last, kind, prefix, n);
    }
  }

  /** Everything deleted between the two sets is a listed runner of some other name. */
  ghost predicate OnlyOthersDeleted(env: Env, gone: set<Deleted>, gone': set<Deleted>, n: string) {
    && gone <= gone'
    && forall d :: d in gone' && d !in gone ==>
         exists k, r :: Lists(env, k, r) && k.Target() == d.target && r.id == d.id && r.name != n
  }

  lemma LookupStable(env: Env, k: Key, gone: set<Deleted>, gone': set<Deleted>, n: string)
    requires Registry(env) && OnlyOthersDeleted(env, gone, gone', n)
    ensures Find(Runners(env, k, gone), n) == Find(Runners(env, k, gone'), n)
  {
    if env.listing(k).Some? {
      var rs := env.listing(k).value;
      forall r | r in rs && r.name == n
        ensures Deleted(k.Target(), r.id) in gone <==> Deleted(k.Target(), r.id) in gone'
      {
        assert Lists(env, k, r);
      }
      FindIgnoresOthers(rs, k.Target(), gone, gone', k.kind, env.prefix, n);
    }
  }

  lemma CachedRunner(env: Env, k: Key, gone: set<Deleted>, n: string)
    requires n in Runners(env, k, gone)
    ensures Lists(env, k, Runners(env, k, gone)[n]) && Runners(env, k, gone)[n].name == n
  {
    var rs := env.listing(k).value;
    ListedMembers(rs, k.Target(), gone);
    ByNameMembers(Listed(rs, k.Target(), gone), k.kind, env.prefix);
  }

  /** A later listing of a scope lacks only runners deleted in between. */
  lemma LateListing(env: Env, k: Key, lo: set<Deleted>, hi: set<Deleted>, name: string)
    requires Registry(env) && lo <= hi && name in Runners(env, k, lo)
    ensures if name in Runners(env, k, hi) then Runners(env, k, hi)[name] == Runners(env, k, lo)[name]
            else Deleted(k.Target(), Runners(env, k, lo)[name].id) in hi
  {
    CachedRunner(env, k, lo, name);
    if name in Runners(env, k, hi) {
      CachedRunner(env, k, hi, name);
    } else {
      var rs := env.listing(k).value;
      ListedMembers(rs, k.Target(), hi);
      ByNameMembers(Listed(rs, k.Target(), lo), k.kind, env.prefix);
      ByNameMembers(Listed(rs, k.Target(), hi), k.kind, env.prefix);
    }
  }

  lemma EarlyListing(env: Env, k: Key, lo: set<Deleted>, hi: set<Deleted>, name: string)
    requires lo <= hi && name in Runners(env, k, hi)
    ensures name in Runners(env, k, lo)
  {
    var rs := env.listing(k).value;
    ListedMembers(rs, k.Target(), lo);
    ListedMembers(rs, k.Target(), hi);
    ByNameMembers(Listed(rs, k.Target(), lo), k.kind, env.prefix);
    ByNameMembers(Listed(rs, k.Target(), hi), k.kind, env.prefix);
  }

  /** Phase 3 deletes only runners named after workers it retires. */
  lemma HealthDeletesOthers(done: set<string>, pods: Pods, snap: W.Rows, jobs: map<Id, Jobs.Job>,
                            gone: set<Deleted>, env: Env, n: string)
    requires n in done && n in snap ==> !HealthOf(n, pods, snap, jobs, gone, env).Retired?
    ensures OnlyOthersDeleted(env, gone, HealthGone(done, pods, snap, jobs, gone, env), n)
  {
    forall d | d in HealthGone(done, pods, snap, jobs, gone, env) && d !in gone
      ensures exists k, r :: Lists(env, k, r) && k.Target() == d.target && r.id == d.id && r.name != n
    {
      var m :| m in done && m in snap && HealthOf(m, pods, snap, jobs, gone, env).Retired?
               && HealthOf(m, pods, snap, jobs, gone, env).runner.Some?
               && d == Deleted(KeyOf(snap[m]).Target(), HealthOf(m, pods, snap, jobs, gone, env).runner.value);
      var k := KeyOf(snap[m]);
      CachedRunner(env, k, gone, m);
      assert Lists(env, k, Runners(env, k, gone)[m]);
    }
  }

  lemma CleanupDeletesOthers(s: State, snap: W.Rows, env: Env, base: set<Deleted>, n: string)
    requires n in snap && snap[n].Active()
    ensures var cache := IdealCache(s, env);
      OnlyOthersDeleted(env, base, base + CleanupGone(CleanupCalls(cache, snap, env), cache, env), n)
  {
    var cache := IdealCache(s, env);
    var calls := CleanupCalls(cache, snap, env);
    forall d | d in CleanupGone(calls, cache, env)
      ensures exists k, r :: Lists(env, k, r) && k.Target() == d.target && r.id == d.id && r.name != n
    {
      var c :| c in calls && c.0 in cache && c.1 in cache[c.0] && d == Deleted(c.0.Target(), cache[c.0][c.1].id);
      CachedRunner(env, c.0, s.gone, c.1);
      assert Lists(env, c.0, cache[c.0][c.1]);
    }
  }

  // ---- idempotence ----

  /** A row the whole run leaves active went through every phase unretired. */
  lemma FirstRunKept(s: State, jobs: map<Id, Jobs.Job>, env: Env, n: string)
    requires env.nodes.Some? && env.podsListed
    requires n in SyncRows(s, jobs, env) && SyncRows(s, jobs, env)[n].Active()
    ensures var u := AfterUnreachable(s, env);
      var snap := W.Snapshot(u.workers, env.now, LOOKBACK);
      && n in snap && snap[n] == SyncRows(s, jobs, env)[n]
      && n in u.workers && u.workers[n] == snap[n]
      && !HealthOf(n, s.pods, snap, jobs, u.gone, env).Retired?
  {
    var u := AfterUnreachable(s, env);
    assert n in u.workers;
    HealthRow(u, s.pods, jobs, env, n);
    AfterUnreachableRow(s, env, n);
  }

  lemma HealthUnchanged(n: string, pods: Pods, pods': Pods, snap: W.Rows, snap': W.Rows, jobs: map<Id, Jobs.Job>,
                        gone: set<Deleted>, gone': set<Deleted>, env: Env)
    requires n in snap && n in snap' && snap[n] == snap'[n]
    requires n in pods && n in pods' && pods[n] == pods'[n]
    requires Find(Runners(env, KeyOf(snap[n]), gone), n) == Find(Runners(env, KeyOf(snap[n]), gone'), n)
    ensures HealthOf(n, pods, snap, jobs, gone, env) == HealthOf(n, pods', snap', jobs, gone', env)
  {
  }

  /** A run keeps a row that agrees with the cluster and that the health checks do not retire. */
  lemma AgreeingRowIsKept(s: State, jobs: map<Id, Jobs.Job>, env: Env, n: string)
    requires env.nodes.Some? && env.podsListed && n in s.workers && s.workers[n].Active()
    requires Agrees(s.workers[n], n, s.pods, NodesByName(env.nodes.value))
    requires var snap := W.Snapshot(AfterUnreachable(s, env).workers, env.now, LOOKBACK);
      n in snap ==> !HealthOf(n, s.pods, snap, jobs, s.gone, env).Retired?
    ensures n in SyncRows(s, jobs, env) && SyncRows(s, jobs, env)[n] == s.workers[n]
  {
    SurvivesToHealth(s, env, n);
    var u := AfterUnreachable(s, env);
    var snap := W.Snapshot(u.workers, env.now, LOOKBACK);
    assert u.gone == s.gone;
    assert n in u.workers;
  }

  /** Nothing a run deletes on GitHub changes the lookup of a worker it keeps. */
  lemma KeptWorkerKeepsRunner(s: State, jobs: map<Id, Jobs.Job>, env: Env, n: string, k: Key)
    requires Registry(env) && env.nodes.Some? && env.podsListed
    requires n in SyncRows(s, jobs, env) && SyncRows(s, jobs, env)[n].Active()
    ensures Find(Runners(env, k, s.gone), n) == Find(Runners(env, k, Sync(s, jobs, env).gone), n)
  {
    FirstRunKept(s, jobs, env, n);
    var u := AfterUnreachable(s, env);
    var h := AfterHealth(u, s.pods, jobs, env);
    var snap, cleanupSnap := W.Snapshot(u.workers, env.now, LOOKBACK), W.Snapshot(h.workers, env.now, LOOKBACK);
    assert h.workers == SyncRows(s, jobs, env);
    assert n in cleanupSnap && cleanupSnap[n].Active();
    HealthDeletesOthers(snap.Keys, s.pods, snap, jobs, u.gone, env, n);
    CleanupDeletesOthers(u, cleanupSnap, env, h.gone, n);
    LookupStable(env, k, s.gone, h.gone, n);
    LookupStable(env, k, h.gone, Sync(s, jobs, env).gone, n);
  }

  /** A row that survived the first run survives the second one unchanged. */
  lemma SecondRunKeepsActive(s: State, s': State, jobs: map<Id, Jobs.Job>, env: Env, n: string)
    requires Registry(env) && env.nodes.Some? && env.podsListed && s' == Sync(s, jobs, env)
    requires n in s'.workers && s'.workers[n].Active()
    ensures n in SyncRows(s', jobs, env) && SyncRows(s', jobs, env)[n] == s'.workers[n]
  {
    var w := s'.workers[n];
    assert s'.workers == SyncRows(s, jobs, env);
    PostReconcileAgreement(s, jobs, env, n);
    FirstRunKept(s, jobs, env, n);
    KeptWorkerKeepsRunner(s, jobs, env, n, KeyOf(w));
    SurvivesToHealth(s', env, n);
    var snap := W.Snapshot(AfterUnreachable(s, env).workers, env.now, LOOKBACK);
    var snap' := W.Snapshot(AfterUnreachable(s', env).workers, env.now, LOOKBACK);
    if n in snap' {
      assert snap'[n] == w;
      HealthUnchanged(n, s.pods, s'.pods, snap, snap', jobs, s.gone, s'.gone, env);
    }
    AgreeingRowIsKept(s', jobs, env, n);
  }

  lemma SurvivesToHealth(s: State, env: Env, n: string)
    requires env.nodes.Some? && n in s.workers && s.workers[n].Active()
    requires Agrees(s.workers[n], n, s.pods, NodesByName(env.nodes.value))
    ensures n in AfterUnreachable(s, env).workers && AfterUnreachable(s, env).workers[n] == s.workers[n]
  {
  }

  lemma ActiveRowsDecide(rows: W.Rows, rows': W.Rows)
    requires Forward(rows, rows') && forall n :: n in rows && rows[n].Active() ==> rows'[n] == rows[n]
    ensures rows' == rows
  {
  }

  /** Against the same clock and the same answers, apart from what the first run deleted, a
      second run changes no worker row: in particular none whose runner GitHub refused to delete. */
  lemma ReconcileIdempotent(s: State, jobs: map<Id, Jobs.Job>, env: Env)
    requires Registry(env) && RowsOk(s.workers)
    ensures Sync(Sync(s, jobs, env), jobs, env).workers == Sync(s, jobs, env).workers
  {
    var s' := Sync(s, jobs, env);
    SyncForward(s, jobs, env);
    SyncRowsForward(s', jobs, env);
    var again := SyncRows(s', jobs, env);
    forall n | n in s'.workers && s'.workers[n].Active() ensures again[n] == s'.workers[n] {
      if env.nodes.Some? && env.podsListed {
        SecondRunKeepsActive(s, s', jobs, env, n);
      }
    }
    ActiveRowsDecide(s'.workers, again);
    SyncUnfolds(s', jobs, env);
  }

  lemma SyncUnfolds(s: State, jobs: map<Id, Jobs.Job>, env: Env)
    ensures Sync(s, jobs, env).workers == SyncRows(s, jobs, env)
  {
  }

  // ---- phase 4 ----

  /** For any lookback, phase 4 asks GitHub to delete a cached runner of ours exactly when the
      whole table has no active row of that name. */
  lemma CleanupSeesWholeTable(cache: map<Key, map<string, Runner>>, rows: W.Rows, env: Env, lookback: nat)
    ensures CleanupCalls(cache, W.Snapshot(rows, env.now, lookback), env) ==
            set k, name | k in cache && env.reauth(k) && name in cache[k] && env.prefix <= name
                          && !(name in rows && rows[name].Active()) :: (k, name)
  {
  }

  /** A worker whose runner GitHub refused to delete keeps its row, its pod and its registration. */
  lemma RefusedWorkerIsLeftAlone(s: State, jobs: map<Id, Jobs.Job>, env: Env, n: string, lookback: nat)
    requires env.nodes.Some? && env.podsListed && n in s.workers
    requires var u := AfterUnreachable(s, env);
      var snap := W.Snapshot(u.workers, env.now, LOOKBACK);
      n in snap && HealthOf(n, s.pods, snap, jobs, u.gone, env).Refused?
    ensures var u := AfterUnreachable(s, env);
      var h := AfterHealth(u, s.pods, jobs, env);
      && Sync(s, jobs, env).workers[n] == u.workers[n] && u.workers[n].Active()
      && n in Sync(s, jobs, env).pods && Sync(s, jobs, env).pods[n] == s.pods[n]
      && forall k :: (k, n) !in CleanupCalls(IdealCache(u, env), W.Snapshot(h.workers, env.now, lookback), env)
  {
    var u := AfterUnreachable(s, env);
    var h := AfterHealth(u, s.pods, jobs, env);
    assert h.workers[n] == u.workers[n];
    PostReconcileAgreement(s, jobs, env, n);
    assert n in W.Snapshot(h.workers, env.now, lookback);
  }

  predicate Excused(w: W.Worker, r: Option<Runner>, ranJob: bool) {
    w.status.Running? && if r.Some? then r.value.status == "online" && r.value.busy else ranJob
  }

  /** The health checks fail nobody early and nobody who works or has worked, and everybody
      else who is overdue by the longest timeout. */
  lemma HealthDeadlines(w: W.Worker, p: Pod, r: Option<Runner>, ranJob: bool, now: int)
    requires w.Active() && W.RowOk(w)
    ensures Decide(w, p, r, ranJob, now).Fail? ==>
              && !Excused(w, r, ranJob)
              && (w.status.Pending? ==> now - p.created >= POD_PENDING_TIMEOUT)
              && (w.status.Running? ==> now - w.runningAt.value >= RUNNER_REGISTRATION_TIMEOUT)
    ensures && !Excused(w, r, ranJob)
            && (w.status.Pending? ==> now - p.created >= POD_PENDING_TIMEOUT)
            && (w.status.Running? ==> now - w.runningAt.value >= RUNNER_PENDING_TIMEOUT) ==>
              Decide(w, p, r, ranJob, now).Fail?
  {
  }

  /** A running worker whose pod lives on a reachable node, and which GitHub shows busy or which
      has run its job and unregistered, comes out of a run with row and pod untouched. */
  lemma WorkingWorkerSurvives(s: State, jobs: map<Id, Jobs.Job>, env: Env, n: string)
    requires env.nodes.Some? && env.podsListed && n in s.workers && s.workers[n].status.Running?
    requires Agrees(s.workers[n], n, s.pods, NodesByName(env.nodes.value))
    requires Excused(s.workers[n], Find(Runners(env, KeyOf(s.workers[n]), s.gone), n), RanJob(jobs, n))
    ensures n in Sync(s, jobs, env).workers && Sync(s, jobs, env).workers[n] == s.workers[n]
    ensures n in Sync(s, jobs, env).pods && Sync(s, jobs, env).pods[n] == s.pods[n]
  {
    var snap := W.Snapshot(AfterUnreachable(s, env).workers, env.now, LOOKBACK);
    SurvivesToHealth(s, env, n);
    if n in snap {
      KeptWhenExcused(s, snap, jobs, env, n);
    }
    AgreeingRowIsKept(s, jobs, env, n);
    SyncUnfolds(s, jobs, env);
    PostReconcileAgreement(s, jobs, env, n);
  }

  lemma KeptWhenExcused(s: State, snap: W.Rows, jobs: map<Id, Jobs.Job>, env: Env, n: string)
    requires n in snap && Excused(snap[n], Find(Runners(env, KeyOf(snap[n]), s.gone), n), RanJob(jobs, n))
    ensures !HealthOf(n, s.pods, snap, jobs, s.gone, env).Retired?
  {
  }

  /** Past the longest timeout, without an excuse, and GitHub lets go of the runner. */
  predicate Overdue(w: W.Worker, p: Pod, r: Option<Runner>, ranJob: bool, env: Env) {
    && W.RowOk(w) && !Excused(w, r, ranJob)
    && (w.status.Pending? ==> env.now - p.created >= POD_PENDING_TIMEOUT)
    && (w.status.Running? ==> env.now - w.runningAt.value >= RUNNER_PENDING_TIMEOUT)
    && env.auth(KeyOf(w)) && (r.Some? ==> !env.refuses(KeyOf(w), r.value.id))
  }

  lemma RetiredWhenOverdue(pods: Pods, snap: W.Rows, jobs: map<Id, Jobs.Job>, gone: set<Deleted>, env: Env, n: string)
    requires n in snap && n in pods && snap[n].Active()
    requires Overdue(snap[n], pods[n], Find(Runners(env, KeyOf(snap[n]), gone), n), RanJob(jobs, n), env)
    ensures HealthOf(n, pods, snap, jobs, gone, env).Retired?
  {
    var w := snap[n];
    HealthDeadlines(w, pods[n], Find(Runners(env, KeyOf(w), gone), n), RanJob(jobs, n), env.now);
  }

  lemma HealthFails(s: State, pods: Pods, jobs: map<Id, Jobs.Job>, env: Env, n: string)
    requires n in s.workers && s.workers[n].Active() && n in pods
    requires Overdue(s.workers[n], pods[n], Find(Runners(env, KeyOf(s.workers[n]), s.gone), n), RanJob(jobs, n), env)
    ensures n in AfterHealth(s, pods, jobs, env).workers && AfterHealth(s, pods, jobs, env).workers[n].status.Failed?
  {
    var snap := W.Snapshot(s.workers, env.now, LOOKBACK);
    assert n in snap && snap[n] == s.workers[n];
    RetiredWhenOverdue(pods, snap, jobs, s.gone, env, n);
  }

  /** An active worker in agreement with the cluster is failed by a run once it is overdue. */
  lemma OverdueWorkerIsRetired(s: State, jobs: map<Id, Jobs.Job>, env: Env, n: string)
    requires env.nodes.Some? && env.podsListed && n in s.workers && s.workers[n].Active()
    requires Agrees(s.workers[n], n, s.pods, NodesByName(env.nodes.value))
    requires Overdue(s.workers[n], s.pods[n], Find(Runners(env, KeyOf(s.workers[n]), s.gone), n), RanJob(jobs, n), env)
    ensures n in Sync(s, jobs, env).workers && Sync(s, jobs, env).workers[n].status.Failed?
  {
    SurvivesToHealth(s, env, n);
    HealthFails(AfterUnreachable(s, env), s.pods, jobs, env, n);
    SyncUnfolds(s, jobs, env);
  }
}
