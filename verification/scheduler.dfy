/** Whole runs of the control plane (scheduler/main.go): a tick is job sync, worker sync and
    demand match under one lock; between ticks webhooks arrive, pods are bound, change phase
    and vanish.  The invariant below holds in every state any such run can reach. */
module Scheduler {
  import opened Base
  import opened Cluster
  import opened Allocator
  import opened Router
  import Jobs
  import F = FairQueue
  import Labels
  import R = Reconcile
  import Service
  import C = Reconciler
  import W = Workers

  /** What stays fixed: the route table, the entity limits and the nodes. */
  datatype Config = Config(routes: seq<Route>, configs: map<Id, Option<nat>>, nodes: seq<Node>)

  ghost predicate ConfigOk(cfg: Config) {
    WellFormed(cfg.routes) && UniqueNames(cfg.nodes)
  }

  /** `pending` order comes from the database, `order` from ranging over a Go map. */
  datatype Event =
    | Tick(answers: Id -> Jobs.Answer, sync: R.Env, order: seq<NodeSelector>, alloc: Allocator.Env)
    | JobQueued(job: Jobs.Job, htmlURL: string)
    | JobWritten(id: Id, w: Jobs.Write)
    | PodBound(pod: string, node: Node)
    | PodReported(pod: string, phase: Phase, containers: seq<ContainerStatus>,
                  initContainers: seq<ContainerStatus>, ready: Option<int>)
    | PodVanished(pod: string)

  ghost predicate Possible(e: Event, cfg: Config) {
    match e
    case Tick(_, _, _, alloc) => alloc.nodes == cfg.nodes && alloc.configs == cfg.configs
    case JobQueued(job, _) => Jobs.Fresh(job)
    case _ => true
  }

  // ---- one step ----

  /** The fields a queued delivery must carry; 0 and "" are what a missing one reads as. */
  predicate Complete(j: Jobs.Job, htmlURL: string) {
    j.installation != Id(0) && j.entityName != "" && htmlURL != ""
  }

  /** A queued webhook: unroutable labels are ignored, incomplete deliveries are refused, the
      rest is stored with its placement. */
  function Enqueue(jobs: map<Id, Jobs.Job>, j: Jobs.Job, htmlURL: string, routes: seq<Route>): map<Id, Jobs.Job> {
    var m := Match(routes, j.entity, j.labels);
    if m.None? || !Complete(j, htmlURL) || j.id in jobs then jobs
    else jobs[j.id := j.(labels := Labels.Canonical(j.labels), selector := m.value.selector, image := m.value.image)]
  }

  /** The store after job sync and worker sync, as demand match finds it. */
  function Synced(st: Store, answers: Id -> Jobs.Answer, env: R.Env): Store {
    var jobs := Jobs.SyncJobs(st.jobs, answers, env.now);
    var s := R.Sync(R.State(st.workers, st.pods, {}), jobs, env);
    Store(s.workers, jobs, s.pods, st.requested)
  }

  lemma SyncKeepsKeys(jobs: map<Id, Jobs.Job>, answers: Id -> Jobs.Answer, now: int)
    requires Jobs.Keyed(jobs)
    ensures Jobs.Keyed(Jobs.SyncJobs(jobs, answers, now))
  {
  }

  ghost function Matched(st: Store, order: seq<NodeSelector>, env: Allocator.Env): Demand
    requires Jobs.Keyed(st.jobs)
  {
    ServeAll(order, Jobs.PendingJobs(st.jobs), Demand(st, {}, []), env)
  }

  function ChangePod(st: Store, name: string, p: Pod): Store { st.(pods := st.pods[name := p]) }

  ghost function Next(st: Store, e: Event, cfg: Config): Store
    requires Jobs.Keyed(st.jobs)
  {
    match e
    case Tick(answers, sync, order, alloc) =>
      SyncKeepsKeys(st.jobs, answers, sync.now);
      Matched(Synced(st, answers, sync), order, alloc).st
    case JobQueued(job, htmlURL) => st.(jobs := Enqueue(st.jobs, job, htmlURL, cfg.routes))
    case JobWritten(id, w) => st.(jobs := Jobs.Rewrite(st.jobs, id, w))
    case PodBound(name, node) =>
      if name in st.pods && node in cfg.nodes && Bindable(st.pods[name], node)
      then ChangePod(st, name, st.pods[name].(node := node.name)) else st
    case PodReported(name, phase, containers, initContainers, ready) =>
      if name in st.pods && !st.pods[name].phase.Terminal()
      then ChangePod(st, name, st.pods[name].(phase := phase, containers := containers,
                                              initContainers := initContainers, ready := ready)) else st
    case PodVanished(name) => st.(pods := st.pods - {name})
  }

  // ---- the invariant ----

  /** Stored under its key, where that key routes. */
  ghost predicate RoutedJob(j: Jobs.Job, routes: seq<Route>) {
    Match(routes, j.entity, j.labels) == Some(Placement(j.selector, j.image)) && Labels.Sorted(j.labels)
  }

  ghost predicate RoutedWorker(w: W.Worker, routes: seq<Route>) {
    Match(routes, w.entity, w.labels) == Some(Placement(w.selector, w.image)) && Labels.Sorted(w.labels)
  }

  /** A pod sits where its worker row says. */
  predicate PlacedAs(p: Pod, w: W.Worker) {
    p.board == w.selector.board && p.provider == w.selector.provider && p.entity == Some(w.entity)
  }

  ghost predicate Placements(st: Store, cfg: Config) {
    && (forall id :: id in st.jobs ==> RoutedJob(st.jobs[id], cfg.routes))
    && (forall n :: n in st.workers ==> RoutedWorker(st.workers[n], cfg.routes))
    && (forall n :: n in st.pods ==> n in st.workers && PlacedAs(st.pods[n], st.workers[n]))
    && Seated(st.pods, cfg.nodes)
  }

  /** No provider-bound pool is charged more pods than its nodes have slots. */
  ghost predicate CapacityKept(pods: Pods, nodes: seq<Node>) {
    forall sel: NodeSelector :: sel.ProviderBound() ==> Bounded(pods, nodes, sel)
  }

  ghost predicate LimitsKept(workers: W.Rows, configs: map<Id, Option<nat>>) {
    forall e :: WorkerLimit(configs, e).Some? ==> |W.ActiveOf(workers, e)| <= WorkerLimit(configs, e).value
  }

  ghost predicate Inv(st: Store, cfg: Config) {
    && Jobs.Keyed(st.jobs) && R.RowsOk(st.workers) && NamesOk(st)
    && Placements(st, cfg)
    && CapacityKept(st.pods, cfg.nodes)
    && LimitsKept(st.workers, cfg.configs)
  }

  /** How a store may differ from an earlier one. */
  ghost predicate Since(st: Store, st': Store) {
    && (forall n :: n in st.workers ==> n in st'.workers && W.Evolves(st.workers[n], st'.workers[n]))
    && (forall id :: id in st.jobs ==> id in st'.jobs && Jobs.Preserves(st.jobs[id], st'.jobs[id]))
    && st.requested <= st'.requested
  }

  // ---- pods ----

  /** `pods'` charges no pool with a pod that `pods` does not. */
  ghost predicate NoNewCharge(pods: Pods, pods': Pods, nodes: seq<Node>) {
    forall n, sel :: n in pods' && Counts(pods'[n], nodes, sel) ==> n in pods && Counts(pods[n], nodes, sel)
  }

  lemma NoNewChargeKeepsCapacity(pods: Pods, pods': Pods, nodes: seq<Node>)
    requires NoNewCharge(pods, pods', nodes) && CapacityKept(pods, nodes)
    ensures CapacityKept(pods', nodes)
  {
    forall sel: NodeSelector | sel.ProviderBound() ensures Bounded(pods', nodes, sel) {
      SubsetCount(ActivePods(pods', nodes, sel), ActivePods(pods, nodes, sel));
      assert Bounded(pods, nodes, sel);
    }
  }

  /** Worker sync removes pods or patches their deadline, nothing else. */
  lemma SyncOnlyLosesPods(s: R.State, jobs: map<Id, Jobs.Job>, env: R.Env, n: string)
    requires n in R.Sync(s, jobs, env).pods
    ensures n in s.pods
    ensures R.Sync(s, jobs, env).pods[n] == s.pods[n]
            || R.Sync(s, jobs, env).pods[n] == s.pods[n].(deadlinePatched := true)
  {
  }

  // ---- events between ticks ----

  lemma PodEventKept(st: Store, name: string, p: Pod, cfg: Config)
    requires Inv(st, cfg) && name in st.pods
    requires p.board == st.pods[name].board && p.provider == st.pods[name].provider && p.entity == st.pods[name].entity
    requires NoNewCharge(st.pods, st.pods[name := p], cfg.nodes) && Seated(st.pods[name := p], cfg.nodes)
    ensures Inv(ChangePod(st, name, p), cfg) && Since(st, ChangePod(st, name, p))
  {
    NoNewChargeKeepsCapacity(st.pods, st.pods[name := p], cfg.nodes);
    SinceSameTables(st, ChangePod(st, name, p));
  }

  lemma SinceSameTables(st: Store, st': Store)
    requires st'.workers == st.workers && st'.jobs == st.jobs && st'.requested == st.requested
    requires R.RowsOk(st.workers)
    ensures Since(st, st')
  {
  }

  lemma BindingKept(st: Store, name: string, node: Node, cfg: Config)
    requires Inv(st, cfg) && ConfigOk(cfg) && name in st.pods && node in cfg.nodes && Bindable(st.pods[name], node)
    ensures var st' := ChangePod(st, name, st.pods[name].(node := node.name));
      Inv(st', cfg) && Since(st, st')
  {
    var p := st.pods[name].(node := node.name);
    var pods' := st.pods[name := p];
    forall n, sel | n in pods' && Counts(pods'[n], cfg.nodes, sel)
      ensures n in st.pods && Counts(st.pods[n], cfg.nodes, sel)
    {
      BindingNeverRaises(st.pods, cfg.nodes, sel, name, node);
      assert n in ActivePods(pods', cfg.nodes, sel);
      assert n in ActivePods(st.pods, cfg.nodes, sel);
    }
    PodEventKept(st, name, p, cfg);
  }

  lemma VanishingKept(st: Store, name: string, cfg: Config)
    requires Inv(st, cfg)
    ensures var st' := st.(pods := st.pods - {name});
      Inv(st', cfg) && Since(st, st')
  {
    NoNewChargeKeepsCapacity(st.pods, st.pods - {name}, cfg.nodes);
    SinceSameTables(st, st.(pods := st.pods - {name}));
  }

  lemma OneJobWrite(j: Jobs.Job, w: Jobs.Write)
    ensures Jobs.Preserves(j, Jobs.Apply(j, w))
  {
  }

  lemma JobEventKept(st: Store, jobs: map<Id, Jobs.Job>, cfg: Config)
    requires Inv(st, cfg) && Jobs.Keyed(jobs)
    requires forall id :: id in st.jobs ==> id in jobs && Jobs.Preserves(st.jobs[id], jobs[id])
    requires forall id :: id in jobs && id !in st.jobs ==> RoutedJob(jobs[id], cfg.routes)
    ensures Inv(st.(jobs := jobs), cfg) && Since(st, st.(jobs := jobs))
  {
  }

  lemma RewriteKept(st: Store, id: Id, w: Jobs.Write, cfg: Config)
    requires Inv(st, cfg)
    ensures var st' := st.(jobs := Jobs.Rewrite(st.jobs, id, w));
      Inv(st', cfg) && Since(st, st')
  {
    forall i | i in st.jobs ensures Jobs.Preserves(st.jobs[i], Jobs.Rewrite(st.jobs, id, w)[i]) {
      OneJobWrite(st.jobs[i], if i == id then w else Jobs.Queued);
    }
    JobEventKept(st, Jobs.Rewrite(st.jobs, id, w), cfg);
  }

  /** The stored key routes like the labels the job came with. */
  lemma StoredKeyRoutes(j: Jobs.Job, routes: seq<Route>)
    requires WellFormed(routes)
    ensures Match(routes, j.entity, Labels.Canonical(j.labels)) == Match(routes, j.entity, j.labels)
    ensures Labels.Sorted(Labels.Canonical(j.labels))
  {
    Labels.CanonicalSorts(j.labels);
    Labels.KeyIdempotent(j.labels);
    KeyDeterminesPlacement(routes, j.entity, Labels.Canonical(j.labels), j.labels);
  }

  lemma EnqueueKept(st: Store, j: Jobs.Job, htmlURL: string, cfg: Config)
    requires Inv(st, cfg) && ConfigOk(cfg)
    ensures var st' := st.(jobs := Enqueue(st.jobs, j, htmlURL, cfg.routes));
      Inv(st', cfg) && Since(st, st')
  {
    StoredKeyRoutes(j, cfg.routes);
    forall i | i in st.jobs ensures Jobs.Preserves(st.jobs[i], st.jobs[i]) {
      OneJobWrite(st.jobs[i], Jobs.Queued);
    }
    JobEventKept(st, Enqueue(st.jobs, j, htmlURL, cfg.routes), cfg);
  }

  /** What a queued delivery does: with all its fields present, a new job is stored under the
      first route that serves it, its labels sorted; nothing else is ever stored. */
  lemma QueuedJobIsStored(st: Store, j: Jobs.Job, htmlURL: string, cfg: Config, i: nat) returns (key: seq<string>)
    requires Jobs.Keyed(st.jobs) && ConfigOk(cfg) && i < |cfg.routes| && Serves(cfg.routes[i], j.entity, j.labels)
    requires forall k :: 0 <= k < i ==> !Serves(cfg.routes[k], j.entity, j.labels)
    ensures Labels.Sorted(key) && multiset(key) == multiset(j.labels)
    ensures Next(st, JobQueued(j, htmlURL), cfg) ==
      if j.installation == Id(0) || j.entityName == "" || htmlURL == "" || j.id in st.jobs then st
      else
        var r := cfg.routes[i];
        st.(jobs := st.jobs[j.id := j.(labels := key, selector := r.selector, image := r.image)])
  {
    key := Labels.Canonical(j.labels);
    Labels.CanonicalSorts(j.labels);
    FirstMatchWins(cfg.routes, j.entity, j.labels, i);
  }

  lemma UnservedJobIsIgnored(st: Store, j: Jobs.Job, htmlURL: string, cfg: Config)
    requires Jobs.Keyed(st.jobs) && ConfigOk(cfg)
    requires forall r :: r in cfg.routes ==> !Serves(r, j.entity, j.labels)
    ensures Next(st, JobQueued(j, htmlURL), cfg) == st
  {
    UnroutableIff(cfg.routes, j.entity, j.labels);
  }

  // ---- the first two thirds of a tick ----

  lemma SyncedKept(st: Store, answers: Id -> Jobs.Answer, env: R.Env, cfg: Config)
    requires Inv(st, cfg)
    ensures Inv(Synced(st, answers, env), cfg) && Since(st, Synced(st, answers, env))
  {
    var jobs := Jobs.SyncJobs(st.jobs, answers, env.now);
    var s := R.State(st.workers, st.pods, {});
    var s' := R.Sync(s, jobs, env);
    forall i | i in st.jobs ensures i in jobs && Jobs.Preserves(st.jobs[i], jobs[i]) {
      var j := st.jobs[i];
      OneJobWrite(j, if j.status.Active() then Jobs.Verdict(j, answers(i), env.now) else Jobs.Queued);
    }
    JobEventKept(st, jobs, cfg);
    R.SyncForward(s, jobs, env);
    forall n | n in s'.pods
      ensures n in st.pods && (s'.pods[n] == st.pods[n] || s'.pods[n] == st.pods[n].(deadlinePatched := true))
    {
      SyncOnlyLosesPods(s, jobs, env, n);
    }
    WorkerSyncKept(st.(jobs := jobs), s'.workers, s'.pods, cfg);
  }

  lemma PodsStaySeated(pods: Pods, pods': Pods, nodes: seq<Node>)
    requires Seated(pods, nodes)
    requires forall n :: n in pods' ==>
      n in pods && (pods'[n] == pods[n] || pods'[n] == pods[n].(deadlinePatched := true))
    ensures Seated(pods', nodes)
  {
  }

  lemma WorkerSyncKept(st: Store, workers: W.Rows, pods: Pods, cfg: Config)
    requires Inv(st, cfg) && R.Forward(st.workers, workers)
    requires forall n :: n in pods ==>
      n in st.pods && (pods[n] == st.pods[n] || pods[n] == st.pods[n].(deadlinePatched := true))
    ensures Inv(st.(workers := workers, pods := pods), cfg)
    ensures forall n :: n in st.workers ==> n in workers && W.Evolves(st.workers[n], workers[n])
  {
    ForwardRetiresOnly(st.workers, workers);
    PodsStaySeated(st.pods, pods, cfg.nodes);
    NoNewChargeKeepsCapacity(st.pods, pods, cfg.nodes);
    forall n | n in workers ensures RoutedWorker(workers[n], cfg.routes) {
      assert W.Evolves(st.workers[n], workers[n]) && RoutedWorker(st.workers[n], cfg.routes);
    }
  }

  // ---- demand match ----

  /** Every attempt so far was for one of the pending jobs. */
  ghost predicate LoggedFrom(d: Demand, pending: seq<Jobs.Job>) {
    forall k :: 0 <= k < |d.log| ==> d.log[k].job in pending
  }

  lemma {:induction false} ServeLogs(rest: seq<Jobs.Job>, l: Loop, env: Allocator.Env, pending: seq<Jobs.Job>)
    requires LoggedFrom(l.d, pending) && forall j :: j in rest ==> j in pending
    ensures LoggedFrom(Serve(rest, l, env).1.d, pending)
    decreases |rest|
  {
    if rest != [] && l.slots > 0 {
      var i := F.PopIndex(rest, l.load);
      assert rest[i] in rest;
      ServeLogs(F.Remove(rest, i), Step(l, rest[i], env), env, pending);
    }
  }

  lemma {:induction false} ServeAllLogs(order: seq<NodeSelector>, pending: seq<Jobs.Job>, d: Demand, env: Allocator.Env)
    requires LoggedFrom(d, pending)
    ensures LoggedFrom(ServeAll(order, pending, d, env), pending)
    decreases |order|
  {
    if order != [] {
      var sel, jobs := order[0], ForSelector(pending, order[0]);
      ForSelectorMembers(pending, sel);
      ServeLogs(jobs, InitialLoop(sel, d, env), env, pending);
      ServeAllLogs(order[1..], pending, ServeSelector(sel, jobs, d, env), env);
    }
  }

  lemma NewPodIsSeated(pods: Pods, nodes: seq<Node>, name: string, sel: NodeSelector, entity: Id, now: int)
    requires Seated(pods, nodes)
    ensures Seated(pods[name := NewPod(sel, entity, now)], nodes)
  {
  }

  lemma TryKeepsPlacements(st: Store, j: Jobs.Job, env: Allocator.Env, a: Answer, cfg: Config)
    requires WellFormed(cfg.routes) && Placements(st, cfg) && RoutedJob(j, cfg.routes)
    ensures Placements(Try(st, j, env.configs, env.now, a).0, cfg)
  {
    if Admitted(st, j, env.configs, a.candidates) {
      var name, w := TryShape(st, j, env.configs, env.now, a);
      StoredKeyRoutes(j, cfg.routes);
      NewPodIsSeated(st.pods, cfg.nodes, name, j.selector, j.entity, env.now);
    }
  }

  lemma {:induction false} ReplayKeepsPlacements(st: Store, log: seq<Attempt>, env: Allocator.Env, cfg: Config)
    requires WellFormed(cfg.routes) && Placements(st, cfg)
    requires forall k :: 0 <= k < |log| ==> RoutedJob(log[k].job, cfg.routes)
    ensures Placements(Replay(st, log, env), cfg)
  {
    if log != [] {
      var last := log[|log| - 1];
      ReplayKeepsPlacements(st, log[..|log| - 1], env, cfg);
      TryKeepsPlacements(Replay(st, log[..|log| - 1], env), last.job, env, last.answer, cfg);
    }
  }

  lemma PendingAreRouted(st: Store, cfg: Config)
    requires Jobs.Keyed(st.jobs) && Placements(st, cfg) && WellFormed(cfg.routes)
    ensures forall j :: j in Jobs.PendingJobs(st.jobs) ==> RoutedJob(j, cfg.routes) && j.selector.ProviderBound()
  {
    Jobs.OldestFirstSorts(Jobs.PendingSet(st.jobs));
    forall j | j in Jobs.PendingJobs(st.jobs) ensures RoutedJob(j, cfg.routes) && j.selector.ProviderBound() {
      assert j in Jobs.PendingSet(st.jobs);
      PlacementIsProviderBound(cfg.routes, j.entity, j.labels);
    }
  }

  lemma MatchedCapacity(st: Store, order: seq<NodeSelector>, env: Allocator.Env, cfg: Config)
    requires Inv(st, cfg) && ConfigOk(cfg) && env.nodes == cfg.nodes
    ensures CapacityKept(Matched(st, order, env).st.pods, cfg.nodes)
  {
    PendingAreRouted(st, cfg);
    forall sel: NodeSelector | sel.ProviderBound() ensures Bounded(Matched(st, order, env).st.pods, cfg.nodes, sel) {
      TickCapacity(order, Jobs.PendingJobs(st.jobs), Demand(st, {}, []), env, sel);
      assert Bounded(st.pods, cfg.nodes, sel);
    }
  }

  lemma MatchedKept(st: Store, order: seq<NodeSelector>, env: Allocator.Env, cfg: Config)
    requires Inv(st, cfg) && ConfigOk(cfg) && env.nodes == cfg.nodes && env.configs == cfg.configs
    ensures Inv(Matched(st, order, env).st, cfg) && Since(st, Matched(st, order, env).st)
  {
    var pending, d := Jobs.PendingJobs(st.jobs), Matched(st, order, env);
    ServeAllReplays(st, 0, order, pending, Demand(st, {}, []), env);
    assert d.log[0..] == d.log;
    ServeAllLogs(order, pending, Demand(st, {}, []), env);
    PendingAreRouted(st, cfg);
    ReplayKeepsPlacements(st, d.log, env, cfg);
    ReplayGrows(st, d.log, env);
    MatchedCapacity(st, order, env, cfg);
    MatchedLimits(st, d.log, env, cfg);
    GrowsSince(st, d.st, d.log, env);
  }

  lemma MatchedLimits(st: Store, log: seq<Attempt>, env: Allocator.Env, cfg: Config)
    requires LimitsKept(st.workers, cfg.configs) && env.configs == cfg.configs
    ensures LimitsKept(Replay(st, log, env).workers, cfg.configs)
  {
    forall e | WorkerLimit(cfg.configs, e).Some?
      ensures |W.ActiveOf(Replay(st, log, env).workers, e)| <= WorkerLimit(cfg.configs, e).value
    {
      LimitsAndDemand(st, log, env, e, []);
    }
  }

  lemma GrowsSince(st: Store, st': Store, log: seq<Attempt>, env: Allocator.Env)
    requires NamesOk(st) && Grows(st, st') && st' == Replay(st, log, env) && R.RowsOk(st.workers)
    ensures Since(st, st') && R.RowsOk(st'.workers)
  {
    RequestedGrows(st, log, env);
    forall n | n in st.workers ensures W.Evolves(st.workers[n], st'.workers[n]) {
      R.OneWrite(st.workers[n], W.MarkOrphaned(0));
    }
    forall i | i in st.jobs ensures Jobs.Preserves(st.jobs[i], st.jobs[i]) {
      OneJobWrite(st.jobs[i], Jobs.Queued);
    }
  }

  lemma {:induction false} RequestedGrows(st: Store, log: seq<Attempt>, env: Allocator.Env)
    ensures st.requested <= Replay(st, log, env).requested
  {
    if log != [] {
      var last := log[|log| - 1];
      RequestedGrows(st, log[..|log| - 1], env);
      var mid := Replay(st, log[..|log| - 1], env);
      if Admitted(mid, last.job, env.configs, last.answer.candidates) {
        var name, w := TryShape(mid, last.job, env.configs, env.now, last.answer);
      }
    }
  }

  // ---- capacity in terms of pods and nodes alone ----

  lemma PlacedPodsAreBound(st: Store, cfg: Config, n: string)
    requires ConfigOk(cfg) && Placements(st, cfg) && n in st.pods
    ensures st.pods[n].board != "" && st.pods[n].provider != ""
  {
    var w := st.workers[n];
    PlacementIsProviderBound(cfg.routes, w.entity, w.labels);
  }

  /** The unfinished pods on the selector's nodes and those still waiting for one fit its slots. */
  ghost predicate Fits(pods: Pods, nodes: seq<Node>, sel: NodeSelector) {
    |Occupants(pods, nodes, sel)| + |Waiting(pods, sel)| <= Total(nodes, sel)
  }

  /** Whether the selector names a provider or takes a whole board. */
  lemma OccupantsFit(st: Store, cfg: Config, sel: NodeSelector)
    requires ConfigOk(cfg) && Inv(st, cfg) && sel.Valid()
    ensures Fits(st.pods, cfg.nodes, sel)
  {
    CountedPods(st.pods, cfg.nodes, sel);
    if sel.ProviderBound() {
      assert Bounded(st.pods, cfg.nodes, sel);
    } else {
      forall n | n in st.pods ensures st.pods[n].provider != "" {
        PlacedPodsAreBound(st, cfg, n);
      }
      BoardIsBounded(st.pods, cfg.nodes, sel.board);
      assert sel == NodeSelector(sel.board, "");
    }
  }

  // ---- runs ----

  lemma SinceTransitive(a: Store, b: Store, c: Store)
    requires Since(a, b) && Since(b, c)
    ensures Since(a, c)
  {
  }

  lemma StepKeepsInvariant(st: Store, e: Event, cfg: Config)
    requires Inv(st, cfg) && ConfigOk(cfg) && Possible(e, cfg)
    ensures Inv(Next(st, e, cfg), cfg) && Since(st, Next(st, e, cfg))
  {
    match e
    case Tick(answers, sync, order, alloc) =>
      SyncedKept(st, answers, sync, cfg);
      MatchedKept(Synced(st, answers, sync), order, alloc, cfg);
      SinceTransitive(st, Synced(st, answers, sync), Next(st, e, cfg));
    case JobQueued(job, htmlURL) => EnqueueKept(st, job, htmlURL, cfg);
    case JobWritten(id, w) => RewriteKept(st, id, w, cfg);
    case PodBound(name, node) =>
      if name in st.pods && node in cfg.nodes && Bindable(st.pods[name], node) {
        BindingKept(st, name, node, cfg);
      } else {
        SinceSameTables(st, st);
      }
    case PodReported(name, phase, containers, initContainers, ready) =>
      if name in st.pods && !st.pods[name].phase.Terminal() {
        PodEventKept(st, name, st.pods[name].(phase := phase, containers := containers,
                                              initContainers := initContainers, ready := ready), cfg);
      } else {
        SinceSameTables(st, st);
      }
    case PodVanished(name) => VanishingKept(st, name, cfg);
  }

  ghost predicate Run(run: seq<Store>, cfg: Config) {
    && run != [] && Inv(run[0], cfg)
    && forall i :: 0 <= i < |run| - 1 ==> Steps(run[i], run[i + 1], cfg)
  }

  ghost predicate Steps(st: Store, st': Store, cfg: Config) {
    Jobs.Keyed(st.jobs) && exists e :: Possible(e, cfg) && st' == Next(st, e, cfg)
  }

  /** Safety over whole runs.  In every state of every run: the pods on a selector's nodes and
      those waiting for one fit its slots, no entity exceeds its limit, every row is well formed, jobs, workers and
      pods sit where the routes put them, and no pod name was passed to ProvisionRunner twice.
      Between any two states, terminal rows and set columns are unchanged. */
  lemma RunsAreSafe(run: seq<Store>, cfg: Config, i: nat, k: nat)
    requires ConfigOk(cfg) && Run(run, cfg) && i <= k < |run|
    ensures Inv(run[k], cfg) && Since(run[i], run[k])
    ensures forall sel: NodeSelector :: sel.Valid() ==> Fits(run[k].pods, cfg.nodes, sel)
  {
    RunKeepsInvariant(run, cfg, i, k);
    forall sel: NodeSelector | sel.Valid() ensures Fits(run[k].pods, cfg.nodes, sel) {
      OccupantsFit(run[k], cfg, sel);
    }
  }

  lemma {:induction false} RunKeepsInvariant(run: seq<Store>, cfg: Config, i: nat, k: nat)
    requires ConfigOk(cfg) && Run(run, cfg) && i <= k < |run|
    ensures Inv(run[k], cfg) && Since(run[i], run[k])
    decreases k
  {
    if k == 0 {
      SinceSameTables(run[0], run[0]);
    } else {
      RunKeepsInvariant(run, cfg, if i < k then i else 0, k - 1);
      assert Steps(run[k - 1], run[k - 1 + 1], cfg);
      var e :| Possible(e, cfg) && run[k] == Next(run[k - 1], e, cfg);
      StepKeepsInvariant(run[k - 1], e, cfg);
      if i < k {
        SinceTransitive(run[i], run[k - 1], run[k]);
      } else {
        SinceSameTables(run[k], run[k]);
      }
    }
  }

  /** The table, the limits and the default the service ships with. */
  function Shipped(image24: string, image26: string, nodes: seq<Node>): Config {
    Config(LabelRoutes(image24, image26), ENTITY_CONFIGS, nodes)
  }

  lemma RunIsSafeFor(run: seq<Store>, cfg: Config, k: nat, e: Id, limit: nat, r: Route)
    requires ConfigOk(cfg) && Run(run, cfg) && k < |run| && WorkerLimit(cfg.configs, e) == Some(limit)
    ensures |W.ActiveOf(run[k].workers, e)| <= limit
    ensures r in cfg.routes ==> Fits(run[k].pods, cfg.nodes, r.selector)
  {
    RunsAreSafe(run, cfg, k, k);
  }

  function ShippedLimit(e: Id): nat {
    if e == RISEPROJECT_DEV then 40 else if e == CONDA_FORGE then 30 else 20
  }

  lemma ShippedLimits(e: Id)
    ensures WorkerLimit(ENTITY_CONFIGS, e) == Some(ShippedLimit(e))
  {
    assert RISEPROJECT_DEV.number != CONDA_FORGE.number && RISEPROJECT_STAGING.number != CONDA_FORGE.number;
    assert RISEPROJECT_DEV.number != RISEPROJECT_STAGING.number;
  }

  /** In the shipped configuration: riseproject-dev never has more than 40 active workers,
      conda-forge 30, anyone else 20, and no pool a route names is overcommitted. */
  lemma ShippedRunsAreSafe(image24: string, image26: string, nodes: seq<Node>, run: seq<Store>, k: nat, e: Id, r: Route)
    requires UniqueNames(nodes) && Run(run, Shipped(image24, image26, nodes)) && k < |run|
    ensures |W.ActiveOf(run[k].workers, e)| <= ShippedLimit(e)
    ensures r in LabelRoutes(image24, image26) ==> Fits(run[k].pods, nodes, r.selector)
  {
    TableWellFormed(image24, image26);
    ShippedLimits(e);
    RunIsSafeFor(run, Shipped(image24, image26, nodes), k, e, ShippedLimit(e), r);
  }

  /** The empty store is a legal start, so the invariant is not vacuous. */
  lemma EmptyStoreIsSafe(cfg: Config)
    ensures Inv(Store(map[], map[], map[], []), cfg)
  {
  }

  /** What GetPoolDemand relies on: one pool, one placement, whatever the run. */
  lemma PoolHasOnePlacement(run: seq<Store>, cfg: Config, k: nat, id: Id, n: string)
    requires ConfigOk(cfg) && Run(run, cfg) && k < |run|
    requires id in run[k].jobs && n in run[k].workers
    requires run[k].jobs[id].entity == run[k].workers[n].entity
    requires multiset(run[k].jobs[id].labels) == multiset(run[k].workers[n].labels)
    ensures run[k].jobs[id].selector == run[k].workers[n].selector && run[k].jobs[id].image == run[k].workers[n].image
    ensures n in run[k].pods ==> PlacedAs(run[k].pods[n], run[k].workers[n])
  {
    RunsAreSafe(run, cfg, k, k);
    var j, w := run[k].jobs[id], run[k].workers[n];
    Labels.KeyIffPermutation(j.labels, w.labels);
    assert RoutedJob(j, cfg.routes) && RoutedWorker(w, cfg.routes);
    KeyDeterminesPlacement(cfg.routes, j.entity, j.labels, w.labels);
  }

  lemma SyncRetiresOnly(st: Store, answers: Id -> Jobs.Answer, sync: R.Env, e: Id, key: seq<string>)
    requires R.RowsOk(st.workers)
    ensures |W.ActiveInPool(Synced(st, answers, sync).workers, e, key)| <= |W.ActiveInPool(st.workers, e, key)|
  {
    var mid := Synced(st, answers, sync);
    R.SyncForward(R.State(st.workers, st.pods, {}), mid.jobs, sync);
    ForwardRetiresOnly(st.workers, mid.workers);
  }

  lemma ForwardRetiresOnly(rows: W.Rows, rows': W.Rows)
    requires R.Forward(rows, rows')
    ensures forall e, k :: |W.ActiveInPool(rows', e, k)| <= |W.ActiveInPool(rows, e, k)|
    ensures forall e :: |W.ActiveOf(rows', e)| <= |W.ActiveOf(rows, e)|
  {
    forall n | n in rows' && rows'[n].Active()
      ensures rows[n].Active() && rows'[n].entity == rows[n].entity && rows'[n].labels == rows[n].labels
    {
      assert W.Evolves(rows[n], rows'[n]);
    }
    W.RetiringCounts(rows, rows');
  }

  lemma MatchRespectsDemand(st: Store, order: seq<NodeSelector>, alloc: Allocator.Env, e: Id, key: seq<string>)
    requires Jobs.Keyed(st.jobs)
    ensures var d := Matched(st, order, alloc);
      && d.st.jobs == st.jobs && BackOffKept(d)
      && |W.ActiveInPool(d.st.workers, e, key)| <=
         Max(|W.ActiveInPool(st.workers, e, key)|, |JobsInPool(st.jobs, e, key)|)
  {
    var d := Matched(st, order, alloc);
    ServeAllReplays(st, 0, order, Jobs.PendingJobs(st.jobs), Demand(st, {}, []), alloc);
    assert d.log[0..] == d.log;
    LimitsAndDemand(st, d.log, alloc, e, key);
    TickBacksOff(order, Jobs.PendingJobs(st.jobs), Demand(st, {}, []), alloc);
  }

  /** One tick never takes a pool past what it held or past its active jobs, and gives an
      entity no further attempt once one of its attempts was rate limited. */
  lemma TickRespectsDemand(st: Store, answers: Id -> Jobs.Answer, sync: R.Env, order: seq<NodeSelector>,
                           alloc: Allocator.Env, e: Id, key: seq<string>)
    requires Jobs.Keyed(st.jobs) && R.RowsOk(st.workers) && Jobs.Keyed(Synced(st, answers, sync).jobs)
    ensures var d := Matched(Synced(st, answers, sync), order, alloc);
      && |W.ActiveInPool(d.st.workers, e, key)| <=
         Max(|W.ActiveInPool(st.workers, e, key)|, |JobsInPool(d.st.jobs, e, key)|)
      && BackOffKept(d)
  {
    SyncRetiresOnly(st, answers, sync, e, key);
    MatchRespectsDemand(Synced(st, answers, sync), order, alloc, e, key);
  }

  /** The stages of a tick, in order: jobs converge on GitHub first, worker sync then sees the
      converged jobs, and demand match only adds rows and pods to what worker sync left. */
  lemma TickStages(st: Store, answers: Id -> Jobs.Answer, sync: R.Env, order: seq<NodeSelector>,
                   alloc: Allocator.Env, cfg: Config)
    requires Inv(st, cfg)
    ensures var st' := Next(st, Tick(answers, sync, order, alloc), cfg);
      var s := R.Sync(R.State(st.workers, st.pods, {}), Jobs.SyncJobs(st.jobs, answers, sync.now), sync);
      && st'.jobs == Jobs.SyncJobs(st.jobs, answers, sync.now)
      && (forall n :: n in s.workers ==> n in st'.workers && st'.workers[n] == s.workers[n])
      && (forall n :: n in s.pods ==> n in st'.pods && st'.pods[n] == s.pods[n])
      && (forall n :: n in st'.pods && n !in s.pods ==> n in st'.workers && n !in s.workers)
  {
    var mid := Synced(st, answers, sync);
    var pending, d := Jobs.PendingJobs(mid.jobs), Matched(mid, order, alloc);
    SyncedKept(st, answers, sync, cfg);
    ServeAllReplays(mid, 0, order, pending, Demand(mid, {}, []), alloc);
    assert d.log[0..] == d.log;
    ReplayGrows(mid, d.log, alloc);
  }

  /** Whatever order the grouping map is ranged over, as long as it has every pending selector
      once: at the end of demand match a pending job's selector has no slot left, given the pods on
      its nodes, those waiting and the attempts made, or the job needs no further attempt for a
      reason to be found in the log and the final store. */
  lemma MatchPassesNobodyOver(mid: Store, order: seq<NodeSelector>, alloc: Allocator.Env, cfg: Config, id: Id)
    requires Inv(mid, cfg) && ConfigOk(cfg) && alloc.nodes == cfg.nodes && alloc.configs == cfg.configs
    requires forall i, k :: 0 <= i < k < |order| ==> order[i] != order[k]
    requires id in mid.jobs && mid.jobs[id].status.Pending?
    requires mid.jobs[id].selector in order && alloc.slotsKnown(mid.jobs[id].selector)
    ensures NotPassedOver(mid, mid.jobs[id], Matched(mid, order, alloc), cfg)
  {
    var j, pending := mid.jobs[id], Jobs.PendingJobs(mid.jobs);
    PendingAreRouted(mid, cfg);
    Jobs.OldestFirstSorts(Jobs.PendingSet(mid.jobs));
    assert j in Jobs.PendingSet(mid.jobs);
    Service.TickServesOrExplains(order, pending, mid, alloc, j.selector);
    CountedPods(mid.pods, cfg.nodes, j.selector);
    assert Bounded(mid.pods, cfg.nodes, j.selector);
  }

  ghost predicate NotPassedOver(mid: Store, j: Jobs.Job, d: Demand, cfg: Config) {
    || |Occupants(mid.pods, cfg.nodes, j.selector)| + |Waiting(mid.pods, j.selector)| + |Service.SpentOn(d.log, j.selector)|
       == Total(cfg.nodes, j.selector)
    || Service.Explained(j, d, cfg.configs)
  }

  lemma TickPassesNobodyOver(st: Store, answers: Id -> Jobs.Answer, sync: R.Env, order: seq<NodeSelector>,
                             alloc: Allocator.Env, cfg: Config, id: Id)
    requires Inv(st, cfg) && ConfigOk(cfg) && Possible(Tick(answers, sync, order, alloc), cfg)
    requires forall i, k :: 0 <= i < k < |order| ==> order[i] != order[k]
    requires id in Synced(st, answers, sync).jobs && Synced(st, answers, sync).jobs[id].status.Pending?
    requires var sel := Synced(st, answers, sync).jobs[id].selector; sel in order && alloc.slotsKnown(sel)
    ensures var mid := Synced(st, answers, sync);
      Jobs.Keyed(mid.jobs) && NotPassedOver(mid, mid.jobs[id], Matched(mid, order, alloc), cfg)
  {
    SyncedKept(st, answers, sync, cfg);
    MatchPassesNobodyOver(Synced(st, answers, sync), order, alloc, cfg, id);
  }

  // ---- the handlers ----

  datatype Reply = Ignored | BadRequest | Stored | AlreadyExists

  /** A queued webhook. */
  method HandleQueued(jobs: Jobs.JobTable, j: Jobs.Job, htmlURL: string, routes: seq<Route>) returns (reply: Reply)
    requires Jobs.Fresh(j)
    modifies jobs
    ensures jobs.rows == Enqueue(old(jobs.rows), j, htmlURL, routes)
    ensures reply.Ignored? <==> Match(routes, j.entity, j.labels).None?
    ensures reply.Stored? <==> jobs.rows != old(jobs.rows)
    ensures reply.AlreadyExists? ==> j.id in old(jobs.rows) && Complete(j, htmlURL)
    ensures reply.BadRequest? ==> !Complete(j, htmlURL)
  {
    var m := Match(routes, j.entity, j.labels);
    if m.None? {
      return Ignored;
    }
    if j.installation == Id(0) || j.entityName == "" || htmlURL == "" {
      return BadRequest;
    }
    var key := Labels.SortedJSON(j.labels);
    var stored := jobs.AddJob(j.(labels := key, selector := m.value.selector, image := m.value.image));
    reply := if stored then Stored else AlreadyExists;
  }

  lemma PendingSelectorsListed(jobs: map<Id, Jobs.Job>, order: seq<NodeSelector>)
    requires Jobs.Keyed(jobs)
    requires forall sel :: sel in order <==> ForSelector(Jobs.PendingJobs(jobs), sel) != []
    ensures forall id :: id in jobs && jobs[id].status.Pending? ==> jobs[id].selector in order
  {
    Jobs.OldestFirstSorts(Jobs.PendingSet(jobs));
    forall id | id in jobs && jobs[id].status.Pending? ensures jobs[id].selector in order {
      assert jobs[id] in Jobs.PendingSet(jobs);
      ForSelectorMembers(Jobs.PendingJobs(jobs), jobs[id].selector);
    }
  }

  /** runSchedulerIteration: every stage runs, whatever the earlier ones met. */
  method RunIteration(workers: W.WorkerTable, jobs: Jobs.JobTable, k8s: KubeClient,
                      answers: Id -> Jobs.Answer, sync: R.Env, alloc: Allocator.Env, ghost cfg: Config)
    returns (ghost order: seq<NodeSelector>)
    requires Jobs.Keyed(jobs.rows) && Possible(Tick(answers, sync, [], alloc), cfg) && k8s.nodes == cfg.nodes
    requires R.Registry(sync) && forall id :: Jobs.AboutJob(answers(id), id)
    modifies workers, jobs, k8s
    ensures View(workers, jobs, k8s) == Next(old(View(workers, jobs, k8s)), Tick(answers, sync, order, alloc), cfg)
    ensures ConfigOk(cfg) && Inv(old(View(workers, jobs, k8s)), cfg) ==> Inv(View(workers, jobs, k8s), cfg)
    ensures forall i, k :: 0 <= i < k < |order| ==> order[i] != order[k]
    ensures forall id :: id in jobs.rows && jobs.rows[id].status.Pending? ==> jobs.rows[id].selector in order
  {
    ghost var st := View(workers, jobs, k8s);
    SyncKeepsKeys(jobs.rows, answers, sync.now);
    Jobs.SyncJobsState(jobs, answers, sync.now);
    var gh := new C.GitHub();
    C.SyncWorkersState(workers, jobs, k8s, gh, sync);
    assert View(workers, jobs, k8s) == Synced(st, answers, sync);
    ghost var d;
    order, d := DemandMatch(workers, jobs, k8s, alloc);
    PendingSelectorsListed(jobs.rows, order);
    if ConfigOk(cfg) && Inv(st, cfg) {
      StepKeepsInvariant(st, Tick(answers, sync, order, alloc), cfg);
    }
  }
}
