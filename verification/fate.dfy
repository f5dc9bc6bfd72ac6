/** What one run of the worker sync does to a worker, its pod and its runner, said in terms of
    the pod snapshot, the node list and GitHub's listing alone. */
module Fate {
  import opened Base
  import opened Cluster
  import opened Reconcile
  import Jobs
  import W = Workers

  // ---- what the pod and the nodes show ----

  /** `t` is the latest container termination, or `default` when no container terminated. */
  ghost predicate FinishTime(p: Pod, default: int, t: int) {
    var cs := p.containers + p.initContainers;
    if exists c :: c in cs && c.terminated && c.terminatedAt.Some? then
      && (exists c :: c in cs && c.terminated && c.terminatedAt == Some(t))
      && (forall c :: c in cs && c.terminated && c.terminatedAt.Some? ==> c.terminatedAt.value <= t)
    else t == default
  }

  predicate RunsJob(c: ContainerStatus) { c.name == "runner" && c.running && c.runningStarted.Some? }

  /** `t` is when the first running runner container started, else when the pod became ready. */
  ghost predicate StartTime(p: Pod, default: int, t: int) {
    if exists c :: c in p.containers && RunsJob(c) then
      exists i :: 0 <= i < |p.containers| && RunsJob(p.containers[i]) && p.containers[i].runningStarted == Some(t)
                  && forall j :: 0 <= j < i ==> !RunsJob(p.containers[j])
    else if p.ready.Some? then t == p.ready.value
    else t == default
  }

  /** The last listed node of the pod's node name carries the unreachable taint. */
  ghost predicate OnLostNode(p: Pod, nodes: seq<KubeNode>) {
    && p.node != ""
    && exists i :: 0 <= i < |nodes| && nodes[i].name == p.node && "node.kubernetes.io/unreachable" in nodes[i].taints
                   && forall j :: i < j < |nodes| ==> nodes[j].name != p.node
  }

  lemma FinishTimeIs(p: Pod, default: int)
    ensures forall t :: FinishTime(p, default, t) <==> t == Or(Latest(p.containers + p.initContainers), default)
  {
    LatestIsMaximum(p.containers + p.initContainers);
  }

  lemma {:induction false} FirstRunnerIs(cs: seq<ContainerStatus>)
    ensures FirstRunnerStart(cs).None? <==> forall c :: c in cs ==> !RunsJob(c)
    ensures FirstRunnerStart(cs).Some? ==>
              exists i :: 0 <= i < |cs| && RunsJob(cs[i]) && cs[i].runningStarted == FirstRunnerStart(cs)
                          && forall j :: 0 <= j < i ==> !RunsJob(cs[j])
  {
    if cs != [] {
      assert cs == [cs[0]] + cs[1..];
      FirstRunnerIs(cs[1..]);
      if !RunsJob(cs[0]) && FirstRunnerStart(cs).Some? {
        var i :| 0 <= i < |cs[1..]| && RunsJob(cs[1..][i]) && cs[1..][i].runningStarted == FirstRunnerStart(cs[1..])
                 && forall j :: 0 <= j < i ==> !RunsJob(cs[1..][j]);
        forall j | 0 <= j < i + 1 ensures !RunsJob(cs[j]) {
          assert j > 0 ==> cs[j] == cs[1..][j - 1];
        }
        assert cs[i + 1] == cs[1..][i];
      }
    }
  }

  lemma StartTimeIs(p: Pod, default: int)
    ensures StartTime(p, default, Or(RunnerStartedAt(p), default))
  {
    FirstRunnerIs(p.containers);
  }

  /** The map keeps the last node of each name; `i` is -1 if there is none. */
  lemma {:induction false} LastNamed(nodes: seq<KubeNode>, name: string) returns (i: int)
    ensures -1 <= i < |nodes| && (name in NodesByName(nodes) <==> i >= 0)
    ensures i >= 0 ==> nodes[i].name == name && NodesByName(nodes)[name] == nodes[i]
    ensures forall j :: i < j < |nodes| ==> nodes[j].name != name
  {
    if nodes == [] {
      i := -1;
    } else if nodes[|nodes| - 1].name == name {
      i := |nodes| - 1;
    } else {
      i := LastNamed(nodes[..|nodes| - 1], name);
    }
  }

  lemma LostNodeIs(p: Pod, nodes: seq<KubeNode>)
    ensures OnLostNode(p, nodes) <==> OnUnreachable(p, NodesByName(nodes))
    ensures p.node in NodesByName(nodes) <==> exists i :: 0 <= i < |nodes| && nodes[i].name == p.node
  {
    var i := LastNamed(nodes, p.node);
    if OnLostNode(p, nodes) {
      var k :| 0 <= k < |nodes| && nodes[k].name == p.node && "node.kubernetes.io/unreachable" in nodes[k].taints
               && forall j :: k < j < |nodes| ==> nodes[j].name != p.node;
      assert k == i;
    }
  }

  /** Without the list of nodes or of pods a run does nothing at all. */
  lemma UnlistedRunIsIdle(s: State, jobs: map<Id, Jobs.Job>, env: Env)
    requires env.nodes.None? || !env.podsListed
    ensures Sync(s, jobs, env) == s
  {
  }

  // ---- phases 1, 2 and 2.5, row by row ----

  lemma RowAfterPhase2(s: State, env: Env, n: string)
    requires n in s.workers && s.workers[n].Active()
    ensures n in AfterPhase2(s, env)
    ensures AfterPhase2(s, env)[n] ==
            if n !in s.pods then W.Apply(s.workers[n], W.MarkOrphaned(env.now))
            else PhaseRow(s.workers[n], s.pods[n], s.workers[n], env.now)
  {
    var snap := W.Snapshot(s.workers, env.now, LOOKBACK);
    assert n in snap && snap[n] == s.workers[n];
    var swept := SweptRows(s.workers, s.pods, snap, env.now);
    assert n in swept;
    assert n in s.pods ==> swept[n] == s.workers[n];
  }

  lemma RowAfterUnreachable(s: State, env: Env, n: string)
    requires env.nodes.Some? && n in AfterPhase2(s, env)
    ensures n in AfterUnreachable(s, env).workers
    ensures var w := AfterPhase2(s, env)[n];
      AfterUnreachable(s, env).workers[n] ==
      if w.Active() && n in s.pods && OnUnreachable(s.pods[n], NodesByName(env.nodes.value))
      then W.Apply(w, W.MarkFailed(s.pods[n].node, W.NodeUnreachable, Some(env.now), env.now)) else w
  {
    var rows := AfterPhase2(s, env);
    var snap := W.Snapshot(rows, env.now, LOOKBACK);
    assert rows[n].Active() ==> n in snap && snap[n] == rows[n];
  }

  lemma RowAfterHealth(s: State, pods: Pods, jobs: map<Id, Jobs.Job>, env: Env, n: string)
    requires n in s.workers
    ensures n in AfterHealth(s, pods, jobs, env).workers
    ensures !s.workers[n].Active() ==> AfterHealth(s, pods, jobs, env).workers[n] == s.workers[n]
  {
  }

  /** What phase 2 and the node check retire keeps its row to the end of the run. */
  lemma RetiredEarly(s: State, jobs: map<Id, Jobs.Job>, env: Env, n: string)
    requires env.nodes.Some? && env.podsListed && n in s.workers && n in AfterUnreachable(s, env).workers
    requires !AfterUnreachable(s, env).workers[n].Active()
    ensures n in Sync(s, jobs, env).workers && Sync(s, jobs, env).workers[n] == AfterUnreachable(s, env).workers[n]
  {
    RowAfterHealth(AfterUnreachable(s, env), s.pods, jobs, env, n);
    SyncUnfolds(s, jobs, env);
  }

  // ---- the fate of a row ----

  ghost predicate Listed(env: Env) { env.nodes.Some? && env.podsListed }

  /** An active worker without a pod is completed now, node and times kept. */
  lemma PodlessIsCompleted(s: State, jobs: map<Id, Jobs.Job>, env: Env, n: string)
    requires Listed(env) && n in s.workers && s.workers[n].Active() && W.RowOk(s.workers[n]) && n !in s.pods
    ensures n in Sync(s, jobs, env).workers
    ensures Sync(s, jobs, env).workers[n] == s.workers[n].(status := Completed, completedAt := Some(env.now))
  {
    RowAfterPhase2(s, env, n);
    RowAfterUnreachable(s, env, n);
    RetiredEarly(s, jobs, env, n);
  }

  /** The node column of a row a pod's end retires. */
  function NodeOr(w: W.Worker, p: Pod): Option<string> { if w.node.Some? then w.node else Some(p.node) }

  /** A Succeeded pod completes its worker without a failure, a Failed pod fails it for that
      reason; either when its last container terminated, else now. */
  ghost predicate Finished(w: W.Worker, p: Pod, now: int, w': W.Worker) {
    && w'.completedAt.Some? && FinishTime(p, now, w'.completedAt.value)
    && (p.phase.PodSucceeded? ==>
          w' == w.(status := Completed, node := NodeOr(w, p), completedAt := w'.completedAt) && w'.failure.None?)
    && (p.phase.PodFailed? ==>
          w' == w.(status := Failed, failure := Some(W.PodFailed), node := NodeOr(w, p), completedAt := w'.completedAt))
  }

  lemma PhaseFinishes(w: W.Worker, p: Pod, now: int)
    requires w.Active() && W.RowOk(w) && (p.phase.PodSucceeded? || p.phase.PodFailed?)
    ensures Finished(w, p, now, PhaseRow(w, p, w, now)) && !PhaseRow(w, p, w, now).Active()
  {
    FinishTimeIs(p, now);
  }

  /** Nothing later in the run touches such a row again. */
  lemma FinishedPodDecides(s: State, jobs: map<Id, Jobs.Job>, env: Env, n: string)
    requires Listed(env) && n in s.workers && s.workers[n].Active() && W.RowOk(s.workers[n])
    requires n in s.pods && (s.pods[n].phase.PodSucceeded? || s.pods[n].phase.PodFailed?)
    ensures n in Sync(s, jobs, env).workers
    ensures Finished(s.workers[n], s.pods[n], env.now, Sync(s, jobs, env).workers[n])
  {
    PhaseFinishes(s.workers[n], s.pods[n], env.now);
    RowAfterPhase2(s, env, n);
    RowAfterUnreachable(s, env, n);
    RetiredEarly(s, jobs, env, n);
  }

  /** The row of an active worker once phase 2 followed its unfinished pod: a pending one whose
      pod runs starts running on the pod's node, when its runner did. */
  ghost predicate Followed(w: W.Worker, p: Pod, now: int, w': W.Worker) {
    if w.status.Pending? && p.phase.PodRunning? then
      && w'.runningAt.Some?
      && w' == w.(status := Running, node := Some(p.node), runningAt := w'.runningAt)
      && if w.runningAt.Some? then w'.runningAt == w.runningAt else StartTime(p, now, w'.runningAt.value)
    else w' == w
  }

  lemma FollowedAfterPhase2(s: State, env: Env, n: string)
    requires n in s.workers && s.workers[n].Active() && n in s.pods && !s.pods[n].phase.Terminal()
    ensures n in AfterPhase2(s, env) && AfterPhase2(s, env)[n].Active()
    ensures Followed(s.workers[n], s.pods[n], env.now, AfterPhase2(s, env)[n])
  {
    RowAfterPhase2(s, env, n);
    StartTimeIs(s.pods[n], env.now);
  }

  function FailedFor(w: W.Worker, p: Pod, reason: W.Reason, now: int): W.Worker {
    w.(status := Failed, failure := Some(reason), completedAt := Some(now),
       node := NodeOr(w, p))
  }

  /** A worker whose unfinished pod sits on an unreachable node fails for that reason, now. */
  lemma LostNodeFails(s: State, jobs: map<Id, Jobs.Job>, env: Env, n: string)
    requires Listed(env) && n in s.workers && s.workers[n].Active()
    requires n in s.pods && !s.pods[n].phase.Terminal() && OnLostNode(s.pods[n], env.nodes.value)
    ensures n in Sync(s, jobs, env).workers
    ensures exists u :: Followed(s.workers[n], s.pods[n], env.now, u) &&
              Sync(s, jobs, env).workers[n] == FailedFor(u, s.pods[n], W.NodeUnreachable, env.now)
  {
    FollowedAfterPhase2(s, env, n);
    LostNodeIs(s.pods[n], env.nodes.value);
    RowAfterUnreachable(s, env, n);
    RetiredEarly(s, jobs, env, n);
    assert Followed(s.workers[n], s.pods[n], env.now, AfterPhase2(s, env)[n]);
  }

  // ---- the health checks ----

  /** GitHub's target of a worker: its organization, or its repository for a user. */
  lemma ScopeIs(w: W.Worker)
    ensures KeyOf(w).installation == w.installation
    ensures w.kind.Organization? ==> KeyOf(w).Target() == Scope(Organization, w.entityName)
    ensures w.kind.User? ==> KeyOf(w).Target() == Scope(User, if w.repo.Some? then w.repo.value else "")
  {
  }

  /** GitHub lists a runner of that name in the scope, not deleted meanwhile; a repository's
      runners count only with our prefix.  A failed listing lists nobody. */
  ghost predicate Registered(env: Env, k: Key, gone: set<Deleted>, n: string, r: Runner) {
    && env.listing(k).Some? && r in env.listing(k).value && r.name == n
    && Deleted(k.Target(), r.id) !in gone
    && (k.kind.Organization? || env.prefix <= n)
  }

  lemma RegisteredIs(env: Env, k: Key, gone: set<Deleted>, n: string)
    requires Registry(env)
    ensures forall r :: Registered(env, k, gone, n, r) <==> Find(Runners(env, k, gone), n) == Some(r)
  {
    if env.listing(k).Some? {
      var rs := env.listing(k).value;
      Reconcile.ListedMembers(rs, k.Target(), gone);
      ByNameMembers(Reconcile.Listed(rs, k.Target(), gone), k.kind, env.prefix);
      forall r ensures Registered(env, k, gone, n, r) <==> Find(Runners(env, k, gone), n) == Some(r) {
        if Registered(env, k, gone, n, r) {
          var r' := Runners(env, k, gone)[n];
          assert Lists(env, k, r) && Lists(env, k, r');
        }
      }
    }
  }

  /** The deadline a worker missed, by reason. */
  predicate Missed(w: W.Worker, p: Pod, r: Option<Runner>, ranJob: bool, now: int, reason: W.Reason) {
    match reason
    case PodStuckPending => w.status.Pending? && now - p.created >= 600
    case RunnerNeverRegistered =>
      && w.status.Running? && w.runningAt.Some? && now - w.runningAt.value >= 120
      && if r.None? then !ranJob else r.value.status != "online"
    case RunnerIdle =>
      && w.status.Running? && w.runningAt.Some? && now - w.runningAt.value >= 600
      && r.Some? && r.value.status == "online" && !r.value.busy
    case _ => false
  }

  lemma DecideIff(w: W.Worker, p: Pod, r: Option<Runner>, ranJob: bool, now: int)
    requires w.Active() && W.RowOk(w)
    ensures forall reason :: Decide(w, p, r, ranJob, now) == Fail(reason) <==> Missed(w, p, r, ranJob, now, reason)
  {
  }

  /** Phase 3 may act: the scope authenticates and GitHub lets go of the runner. */
  predicate Removable(env: Env, w: W.Worker, r: Option<Runner>) {
    env.auth(KeyOf(w)) && (r.Some? ==> !env.refuses(KeyOf(w), r.value.id))
  }

  /** A worker phase 3 fails: the reason whose deadline it missed. */
  ghost predicate Fails(s: State, pods: Pods, jobs: map<Id, Jobs.Job>, env: Env, n: string, reason: W.Reason)
    requires n in s.workers && n in pods
  {
    var w := s.workers[n];
    var r := Find(Runners(env, KeyOf(w), s.gone), n);
    Removable(env, w, r) && Missed(w, pods[n], r, exists id :: id in jobs && jobs[id].pod == Some(n), env.now, reason)
  }

  lemma HealthIs(s: State, pods: Pods, jobs: map<Id, Jobs.Job>, env: Env, n: string)
    requires n in s.workers && s.workers[n].Active() && W.RowOk(s.workers[n]) && n in pods
    ensures var snap := W.Snapshot(s.workers, env.now, LOOKBACK);
      && n in snap && snap[n] == s.workers[n]
      && var h := HealthOf(n, pods, snap, jobs, s.gone, env);
         (h.Retired? ==> Fails(s, pods, jobs, env, n, h.reason))
         && forall reason :: Fails(s, pods, jobs, env, n, reason) ==> h.Retired? && h.reason == reason
  {
    var w := s.workers[n];
    var snap := W.Snapshot(s.workers, env.now, LOOKBACK);
    assert n in snap && snap[n] == w;
    DecideIff(w, pods[n], Find(Runners(env, KeyOf(w), s.gone), n), RanJob(jobs, n), env.now);
  }

  lemma HealthDecides(s: State, pods: Pods, jobs: map<Id, Jobs.Job>, env: Env, n: string)
    requires n in s.workers && s.workers[n].Active() && W.RowOk(s.workers[n]) && n in pods
    ensures n in AfterHealth(s, pods, jobs, env).workers
    ensures forall reason :: Fails(s, pods, jobs, env, n, reason) ==>
              AfterHealth(s, pods, jobs, env).workers[n] == FailedFor(s.workers[n], pods[n], reason, env.now)
    ensures (forall reason :: !Fails(s, pods, jobs, env, n, reason)) ==>
              AfterHealth(s, pods, jobs, env).workers[n] == s.workers[n]
  {
    HealthIs(s, pods, jobs, env, n);
  }

  /** Every other active worker, its pod unfinished on a node not known lost: it fails now, for
      the deadline it missed, if phase 3 may act; else it is left as phase 2 left it. */
  lemma LivePodDecides(s: State, jobs: map<Id, Jobs.Job>, env: Env, n: string) returns (u: W.Worker)
    requires Listed(env) && n in s.workers && s.workers[n].Active() && W.RowOk(s.workers[n])
    requires n in s.pods && !s.pods[n].phase.Terminal() && !OnLostNode(s.pods[n], env.nodes.value)
    ensures Followed(s.workers[n], s.pods[n], env.now, u) && n in Sync(s, jobs, env).workers
    ensures var r := Find(Runners(env, KeyOf(u), s.gone), n);
      var ranJob := exists id :: id in jobs && jobs[id].pod == Some(n);
      && (forall reason :: Removable(env, u, r) && Missed(u, s.pods[n], r, ranJob, env.now, reason) ==>
            Sync(s, jobs, env).workers[n] == FailedFor(u, s.pods[n], reason, env.now))
      && ((forall reason :: !(Removable(env, u, r) && Missed(u, s.pods[n], r, ranJob, env.now, reason))) ==>
            Sync(s, jobs, env).workers[n] == u)
  {
    FollowedAfterPhase2(s, env, n);
    LostNodeIs(s.pods[n], env.nodes.value);
    RowAfterUnreachable(s, env, n);
    u := AfterPhase2(s, env)[n];
    LiveHealth(AfterUnreachable(s, env), u, s.pods, jobs, env, n);
    SyncUnfolds(s, jobs, env);
  }

  lemma LiveHealth(s: State, u: W.Worker, pods: Pods, jobs: map<Id, Jobs.Job>, env: Env, n: string)
    requires n in s.workers && s.workers[n] == u && u.Active() && W.RowOk(u) && n in pods
    ensures n in AfterHealth(s, pods, jobs, env).workers
    ensures var r := Find(Runners(env, KeyOf(u), s.gone), n);
      var ranJob := exists id :: id in jobs && jobs[id].pod == Some(n);
      && (forall reason :: Removable(env, u, r) && Missed(u, pods[n], r, ranJob, env.now, reason) ==>
            AfterHealth(s, pods, jobs, env).workers[n] == FailedFor(u, pods[n], reason, env.now))
      && ((forall reason :: !(Removable(env, u, r) && Missed(u, pods[n], r, ranJob, env.now, reason))) ==>
            AfterHealth(s, pods, jobs, env).workers[n] == u)
  {
    HealthDecides(s, pods, jobs, env, n);
    forall reason ensures Fails(s, pods, jobs, env, n, reason) <==>
      var r := Find(Runners(env, KeyOf(u), s.gone), n);
      Removable(env, u, r) && Missed(u, pods[n], r, exists id :: id in jobs && jobs[id].pod == Some(n), env.now, reason)
    {
    }
  }

  // ---- the fate of a pod ----

  lemma PodAfterHealth(s: State, pods: Pods, jobs: map<Id, Jobs.Job>, env: Env, n: string)
    requires n in s.pods
    ensures n in AfterHealth(s, pods, jobs, env).pods
    ensures n !in s.workers || !s.workers[n].Active() || n !in pods ==>
              AfterHealth(s, pods, jobs, env).pods[n] == s.pods[n]
    ensures n in s.workers && s.workers[n].Active() && W.RowOk(s.workers[n]) && n in pods ==>
              AfterHealth(s, pods, jobs, env).pods[n] ==
              if !env.kubeRefuses(CallKill, n) && exists reason :: Fails(s, pods, jobs, env, n, reason)
              then s.pods[n].(deadlinePatched := true) else s.pods[n]
  {
    if n in s.workers && s.workers[n].Active() && W.RowOk(s.workers[n]) && n in pods {
      HealthIs(s, pods, jobs, env, n);
    }
  }

  lemma PodAfterUnreachable(s: State, env: Env, n: string)
    requires env.nodes.Some? && n in s.pods
    ensures n !in AfterUnreachable(s, env).pods <==>
              && n in AfterPhase2(s, env) && AfterPhase2(s, env)[n].Active()
              && OnUnreachable(s.pods[n], NodesByName(env.nodes.value)) && !env.kubeRefuses(CallForceDelete, n)
    ensures n in AfterUnreachable(s, env).pods ==> AfterUnreachable(s, env).pods[n] == s.pods[n]
  {
    var rows := AfterPhase2(s, env);
    var snap := W.Snapshot(rows, env.now, LOOKBACK);
    assert n in rows && rows[n].Active() ==> n in snap && snap[n] == rows[n];
  }

  lemma PodAfterSync(s: State, jobs: map<Id, Jobs.Job>, env: Env, n: string)
    requires Listed(env) && n in s.pods
    ensures var h := AfterHealth(AfterUnreachable(s, env), s.pods, jobs, env);
      && (n in Sync(s, jobs, env).pods <==> n in h.pods && n !in ExpiredPods(s.pods, env))
      && (n in Sync(s, jobs, env).pods ==> Sync(s, jobs, env).pods[n] == h.pods[n])
      && (n in h.pods <==> n in AfterUnreachable(s, env).pods)
  {
  }

  /** A finished pod is removed exactly when it finished six hours ago or more (created, when no
      container tells) and Kubernetes does not refuse; otherwise it is left as it is. */
  lemma FinishedPodFate(s: State, jobs: map<Id, Jobs.Job>, env: Env, n: string, t: int)
    requires Listed(env) && n in s.pods && (s.pods[n].phase.PodSucceeded? || s.pods[n].phase.PodFailed?)
    requires FinishTime(s.pods[n], s.pods[n].created, t)
    ensures n !in Sync(s, jobs, env).pods <==> env.now - t >= 21600 && !env.kubeRefuses(CallDelete, n)
    ensures n in Sync(s, jobs, env).pods ==> Sync(s, jobs, env).pods[n] == s.pods[n]
  {
    FinishTimeIs(s.pods[n], s.pods[n].created);
    FinishedPodRow(s, env, n);
    PodAfterUnreachable(s, env, n);
    PodAfterSync(s, jobs, env, n);
    PodAfterHealth(AfterUnreachable(s, env), s.pods, jobs, env, n);
  }

  lemma FinishedPodRow(s: State, env: Env, n: string)
    requires env.nodes.Some? && n in s.pods && s.pods[n].phase.Terminal()
    ensures n in AfterPhase2(s, env) ==> !AfterPhase2(s, env)[n].Active()
    ensures n in AfterUnreachable(s, env).workers ==> !AfterUnreachable(s, env).workers[n].Active()
  {
    if n in s.workers {
      if AfterPhase2(s, env)[n].Active() {
        Phase2Row(s, env, n);
      }
      RowAfterUnreachable(s, env, n);
    }
  }

  /** The pod of an active worker on a lost node is removed unless Kubernetes refuses. */
  lemma LostPodFate(s: State, jobs: map<Id, Jobs.Job>, env: Env, n: string)
    requires Listed(env) && n in s.pods && !s.pods[n].phase.Terminal() && OnLostNode(s.pods[n], env.nodes.value)
    requires n in s.workers && s.workers[n].Active()
    ensures n !in Sync(s, jobs, env).pods <==> !env.kubeRefuses(CallForceDelete, n)
    ensures n in Sync(s, jobs, env).pods ==> Sync(s, jobs, env).pods[n] == s.pods[n]
  {
    FollowedAfterPhase2(s, env, n);
    LostNodeIs(s.pods[n], env.nodes.value);
    RowAfterUnreachable(s, env, n);
    PodAfterUnreachable(s, env, n);
    PodAfterSync(s, jobs, env, n);
    if n in AfterUnreachable(s, env).pods {
      PodAfterHealth(AfterUnreachable(s, env), s.pods, jobs, env, n);
    }
  }

  /** Any other unfinished pod stays; it is told to stop exactly when phase 3 fails its worker
      and Kubernetes does not refuse. */
  lemma LivePodFate(s: State, jobs: map<Id, Jobs.Job>, env: Env, n: string)
    requires Listed(env) && n in s.pods && !s.pods[n].phase.Terminal()
    requires n in s.workers && s.workers[n].Active() ==> W.RowOk(s.workers[n]) && !OnLostNode(s.pods[n], env.nodes.value)
    ensures n in Sync(s, jobs, env).pods
    ensures Sync(s, jobs, env).pods[n] ==
            if n in s.workers && s.workers[n].Active() && !Sync(s, jobs, env).workers[n].Active()
               && !env.kubeRefuses(CallKill, n)
            then s.pods[n].(deadlinePatched := true) else s.pods[n]
  {
    LostNodeIs(s.pods[n], env.nodes.value);
    PodAfterSync(s, jobs, env, n);
    PodAfterUnreachable(s, env, n);
    if n in s.workers {
      QuietRow(s, env, n);
    }
    PodAfterHealth(AfterUnreachable(s, env), s.pods, jobs, env, n);
    if n in s.workers && s.workers[n].Active() {
      HealthDecides(AfterUnreachable(s, env), s.pods, jobs, env, n);
      SyncUnfolds(s, jobs, env);
    }
  }

  lemma QuietRow(s: State, env: Env, n: string)
    requires env.nodes.Some? && n in s.workers && n in s.pods && !s.pods[n].phase.Terminal()
    requires s.workers[n].Active() ==>
      W.RowOk(s.workers[n]) && !OnUnreachable(s.pods[n], NodesByName(env.nodes.value))
    ensures n in AfterPhase2(s, env) && n in AfterUnreachable(s, env).workers
    ensures var u := AfterUnreachable(s, env).workers[n];
      && u == AfterPhase2(s, env)[n] && (u.Active() <==> s.workers[n].Active()) && (u.Active() ==> W.RowOk(u))
  {
    if s.workers[n].Active() {
      FollowedAfterPhase2(s, env, n);
    } else {
      DoneRow(s, env, n);
    }
    RowAfterUnreachable(s, env, n);
  }

  lemma DoneRow(s: State, env: Env, n: string)
    requires n in s.workers && !s.workers[n].Active()
    ensures n in AfterPhase2(s, env) && AfterPhase2(s, env)[n] == s.workers[n]
  {
  }

  // ---- the fate of a runner ----

  /** Some active worker of the scope keeps it in view: its pod is unfinished on no lost node. */
  ghost predicate InView(s: State, env: Env, k: Key, m: string)
    requires env.nodes.Some?
  {
    && m in s.workers && s.workers[m].Active() && W.RowOk(s.workers[m]) && KeyOf(s.workers[m]) == k && env.auth(k)
    && m in s.pods && !s.pods[m].phase.Terminal() && !OnLostNode(s.pods[m], env.nodes.value)
  }

  /** A registered runner with our prefix and without an active worker is gone after the run,
      if its scope is in view and authenticates again, unless GitHub refuses. */
  lemma StaleRunnerIsDeleted(s: State, jobs: map<Id, Jobs.Job>, env: Env, k: Key, m: string, r: Runner)
    requires Listed(env) && Registry(env) && InView(s, env, k, m) && env.reauth(k)
    requires Registered(env, k, s.gone, r.name, r) && env.prefix <= r.name && !env.refuses(k, r.id)
    requires r.name in Sync(s, jobs, env).workers ==> !Sync(s, jobs, env).workers[r.name].Active()
    ensures Deleted(k.Target(), r.id) in Sync(s, jobs, env).gone
  {
    var u := AfterUnreachable(s, env);
    var h := AfterHealth(u, s.pods, jobs, env);
    LostNodeIs(s.pods[m], env.nodes.value);
    QuietRow(s, env, m);
    FollowedAfterPhase2(s, env, m);
    var snap, last := W.Snapshot(u.workers, env.now, LOOKBACK), W.Snapshot(h.workers, env.now, LOOKBACK);
    assert m in snap && snap[m] == u.workers[m] && KeyOf(u.workers[m]) == k;
    RegisteredIs(env, k, s.gone, r.name);
    assert k in CachedKeys(snap, env);
    var cache := IdealCache(u, env);
    assert k in cache && r.name in cache[k] && cache[k][r.name] == r;
    assert h.workers == Sync(s, jobs, env).workers;
    assert (k, r.name) in CleanupCalls(cache, last, env);
  }

  /** The runner of a worker phase 3 fails is deleted first. */
  lemma FailedWorkersRunnerIsDeleted(s: State, pods: Pods, jobs: map<Id, Jobs.Job>, env: Env, n: string, r: Runner,
                                     reason: W.Reason)
    requires n in s.workers && s.workers[n].Active() && W.RowOk(s.workers[n]) && n in pods
    requires Fails(s, pods, jobs, env, n, reason) && Find(Runners(env, KeyOf(s.workers[n]), s.gone), n) == Some(r)
    ensures Deleted(KeyOf(s.workers[n]).Target(), r.id) in AfterHealth(s, pods, jobs, env).gone
  {
    var w := s.workers[n];
    var snap := W.Snapshot(s.workers, env.now, LOOKBACK);
    assert n in snap && snap[n] == w;
    DecideIff(w, pods[n], Some(r), RanJob(jobs, n), env.now);
    assert HealthOf(n, pods, snap, jobs, s.gone, env) == Health.Retired(reason, Some(r.id));
  }

  /** Nothing else is deleted: a runner a run deletes bears no active worker's name. */
  lemma DeletedRunnersAreStale(s: State, jobs: map<Id, Jobs.Job>, env: Env, k: Key, n: string, r: Runner)
    requires Listed(env) && Registry(env) && Registered(env, k, s.gone, n, r)
    requires Deleted(k.Target(), r.id) in Sync(s, jobs, env).gone
    ensures n in Sync(s, jobs, env).workers ==> !Sync(s, jobs, env).workers[n].Active()
  {
    SyncUnfolds(s, jobs, env);
    RegisteredIs(env, k, s.gone, n);
    RegisteredIs(env, k, Sync(s, jobs, env).gone, n);
    if n in SyncRows(s, jobs, env) && SyncRows(s, jobs, env)[n].Active() {
      KeptWorkerKeepsRunner(s, jobs, env, n, k);
      assert false;
    }
  }

  /** The deletion took the runner of a worker this run failed. */
  ghost predicate TookFailed(s: State, after: W.Rows, env: Env, d: Deleted, n: string, r: Runner) {
    && n in s.workers && s.workers[n].Active() && n in after && after[n].status.Failed?
    && Registered(env, KeyOf(s.workers[n]), s.gone, n, r) && d == Deleted(KeyOf(s.workers[n]).Target(), r.id)
    && env.auth(KeyOf(s.workers[n])) && !env.refuses(KeyOf(s.workers[n]), r.id)
  }

  /** The deletion took a runner with our prefix and without an active worker, from a scope an
      active worker `m` keeps in view and that authenticates both times. */
  ghost predicate TookStale(s: State, after: W.Rows, env: Env, d: Deleted, m: string, r: Runner) {
    && m in s.workers && s.workers[m].Active()
    && var k := KeyOf(s.workers[m]);
    && env.auth(k) && env.reauth(k) && Registered(env, k, s.gone, r.name, r) && d == Deleted(k.Target(), r.id)
    && env.prefix <= r.name && !(r.name in after && after[r.name].Active()) && !env.refuses(k, r.id)
  }

  lemma FailedRunnerCause(s: State, pods: Pods, jobs: map<Id, Jobs.Job>, env: Env, d: Deleted)
    returns (n: string, r: Runner, reason: W.Reason)
    requires RowsOk(s.workers) && d in AfterHealth(s, pods, jobs, env).gone && d !in s.gone
    ensures n in s.workers && s.workers[n].Active() && n in pods && Fails(s, pods, jobs, env, n, reason)
    ensures Find(Runners(env, KeyOf(s.workers[n]), s.gone), n) == Some(r)
    ensures d == Deleted(KeyOf(s.workers[n]).Target(), r.id)
  {
    var snap := W.Snapshot(s.workers, env.now, LOOKBACK);
    n :| n in snap && HealthOf(n, pods, snap, jobs, s.gone, env).Retired?
         && HealthOf(n, pods, snap, jobs, s.gone, env).runner.Some?
         && d == Deleted(KeyOf(snap[n]).Target(), HealthOf(n, pods, snap, jobs, s.gone, env).runner.value);
    HealthIs(s, pods, jobs, env, n);
    reason := HealthOf(n, pods, snap, jobs, s.gone, env).reason;
    r := Find(Runners(env, KeyOf(s.workers[n]), s.gone), n).value;
  }

  lemma SameKeyBefore(s: State, env: Env, n: string)
    requires RowsOk(s.workers) && env.nodes.Some? && n in AfterUnreachable(s, env).workers
    requires AfterUnreachable(s, env).workers[n].Active()
    ensures n in s.workers && s.workers[n].Active() && KeyOf(s.workers[n]) == KeyOf(AfterUnreachable(s, env).workers[n])
    ensures RowsOk(AfterUnreachable(s, env).workers)
  {
    AfterUnreachableForward(s, env);
    assert W.Evolves(s.workers[n], AfterUnreachable(s, env).workers[n]);
  }

  lemma FailedRunnerTaken(s: State, jobs: map<Id, Jobs.Job>, env: Env, d: Deleted) returns (n: string, r: Runner)
    requires Listed(env) && Registry(env) && RowsOk(s.workers)
    requires d in AfterHealth(AfterUnreachable(s, env), s.pods, jobs, env).gone && d !in s.gone
    ensures TookFailed(s, AfterHealth(AfterUnreachable(s, env), s.pods, jobs, env).workers, env, d, n, r)
  {
    var u := AfterUnreachable(s, env);
    AfterUnreachableForward(s, env);
    var reason;
    n, r, reason := FailedRunnerCause(u, s.pods, jobs, env, d);
    SameKeyBefore(s, env, n);
    HealthDecides(u, s.pods, jobs, env, n);
    RegisteredIs(env, KeyOf(s.workers[n]), s.gone, n);
  }

  /** No runner is deleted without cause: whatever a run deletes is the runner of a worker it
      failed, or a stale one of a scope it may act on. */
  lemma DeletionHasCause(s: State, jobs: map<Id, Jobs.Job>, env: Env, d: Deleted) returns (n: string, r: Runner)
    requires Listed(env) && Registry(env) && RowsOk(s.workers)
    requires d in Sync(s, jobs, env).gone && d !in s.gone
    ensures var after := Sync(s, jobs, env).workers;
      TookFailed(s, after, env, d, n, r) || TookStale(s, after, env, d, n, r)
  {
    SyncUnfolds(s, jobs, env);
    if d in AfterHealth(AfterUnreachable(s, env), s.pods, jobs, env).gone {
      n, r := FailedRunnerTaken(s, jobs, env, d);
    } else {
      n, r := StaleRunnerCause(s, jobs, env, d);
    }
  }

  lemma StaleRunnerCause(s: State, jobs: map<Id, Jobs.Job>, env: Env, d: Deleted) returns (m: string, r: Runner)
    requires Listed(env) && Registry(env) && RowsOk(s.workers) && d in Sync(s, jobs, env).gone
    requires d !in AfterHealth(AfterUnreachable(s, env), s.pods, jobs, env).gone
    ensures TookStale(s, Sync(s, jobs, env).workers, env, d, m, r)
  {
    var u := AfterUnreachable(s, env);
    var h := AfterHealth(u, s.pods, jobs, env);
    var snap, last := W.Snapshot(u.workers, env.now, LOOKBACK), W.Snapshot(h.workers, env.now, LOOKBACK);
    var cache := IdealCache(u, env);
    var c :| c in CleanupCalls(cache, last, env) && !env.refuses(c.0, cache[c.0][c.1].id)
             && d == Deleted(c.0.Target(), cache[c.0][c.1].id);
    m :| m in snap && snap[m].Active() && env.auth(KeyOf(snap[m])) && KeyOf(snap[m]) == c.0;
    r := cache[c.0][c.1];
    SameKeyBefore(s, env, m);
    assert Find(Runners(env, c.0, s.gone), c.1) == Some(r);
    RegisteredIs(env, c.0, s.gone, c.1);
    CleanupSeesWholeTable(cache, h.workers, env, LOOKBACK);
  }
}
