# riscv-runner: a verified model of the control plane

The control plane gives GitHub Actions jobs RISC-V machines. A webhook front
end stores jobs; a scheduler, one tick at a time under one lock, converges job
rows with GitHub, worker rows with Kubernetes and GitHub, and then starts
runner pods for pending jobs. This project models that scheduler as a state
machine over worker rows, job rows, pods and GitHub runners, and proves what
each stage promises and what every run keeps. It also covers the GitHub
client's caches, the kubelet watchdog, the slot protocol of the provisioning
script and the weekly usage pivot.

Check it with `dafny verify dfyconfig.toml`.

## Layout

| file | what it models |
|---|---|
| `base.dfy` | values shared by the tables, the cluster and GitHub |
| `workers.dfy`, `jobs.dfy` | the two tables: each UPDATE with its WHERE and COALESCE, and the job sync |
| `labels.dfy`, `router.dfy` | the label key, the route table and first-match routing |
| `cluster.dfy` | nodes, pods, slot counting, pod time facts |
| `fair_queue.dfy` | the fair job queue against a scan of all queued jobs |
| `allocator.dfy` | demand match: attempts, the loop for one selector, a whole tick |
| `service.dfy` | what each answer makes of an attempt, and that a tick passes nobody over |
| `reconcile.dfy` | the phases of the worker sync as functions, and their theorems |
| `fate.dfy` | what a run does to each row, pod and runner, told from pods, nodes and listings alone |
| `reconciler.dfy` | the loops of those phases, for every iteration order |
| `scheduler.dfy` | whole runs: ticks interleaved with webhooks and pod events |
| `github_cache.dfy`, `cooldown.dfy` | the response cache and the per-token cooldown, under interleaved requests |
| `client_laws.dfy` | what denials, answers and stores mean for the requests after them |
| `token_cache.dfy` | the token cache, under interleaved callers |
| `watchdog.dfy`, `slots.dfy`, `pivot.dfy` | the watchdog script, the slot protocol and name allocation, the pivot and its charts |

Stages that mutate state are classes and methods with the source's loops. Each
is proved equal to a function of the old state, and the theorems are about
those functions. A loop over a Go map is a loop over a set that picks any
element, so its proof covers every iteration order. Outside answers (GitHub,
the API server, random suffixes) are arbitrary arguments.

## What was found

- The capacity bound is false when a board-only selector and a
  board-and-provider selector share a board; `Cluster.CapacityBoundIff` says
  exactly when it holds, and every route of the table satisfies the condition.
- Job writes are confluent exactly when the two webhook kinds agree on the
  runner name and the start time (`Jobs.ConfluenceIff`). The runner name is
  written as text, so an empty one from an early delivery sticks.
- The hourly limit of the watchdog can never be reached.
- The cooldown holds exactly when no denial cuts a running cooldown short and
  none arrives while another request of its token is past the gate and unsent
  (`Cooldown.RunKeepsPromiseIff`). Overlapping requests break either half
  (`Cooldown.OverlapCutsCooldownShort`, `Cooldown.OverlapOvertakesDenial`).
- Storing a token can evict that same token (`TokenCache.JustStoredIsLostIff`).
- The throttle spaces the returns of `wait()`, not the starts of the items. An
  item starts later by what its sleep overran and by what it waited for a
  permit. If that is at most `slack`, starts are `delay - slack` apart and no
  more (`Slots.StartGapIff`). Waiting for a permit happens exactly when workers
  yield and there are more items than jobs (`Slots.AcquireBlocksIff`).

## Assumptions

- Database writes inside the lock succeed, and a tick reads one clock.
- Job ids are unique. GitHub's answer about a job carries that job's id.
- GitHub's registry (`Reconcile.Registry`): within one scope a runner name
  belongs to one runner, and within one target an id belongs to one name.
- A tick is atomic: webhooks, bindings and pod changes fall between ticks.
- Nodes, routes and entity limits are fixed over a run, and node names are
  unique. A finished pod does not change again.
- Equal ETags of one resource mean equal representations, and a 304 answers
  only a matching validator (sections 13.1.2 and 15.4.5 of RFC 9110). Token
  hashes have a fixed length and those of the tokens in use do not collide.
  The cache map was made by the constructor.

## Where the code and its documentation differ

The model follows the code.

- `website/docs/architecture/scheduler.md:70-74` describes FIFO over all
  pending jobs and capacity per board. The code serves the least loaded entity
  first and counts per board and provider.
- `website/docs/architecture/scheduler.md:106` skips phase 2.5 when the nodes
  cannot be listed. The code returns before any phase.
- The comment at `control-plane/cmd/scheduler/demand_match.go:17-18` speaks of
  round-robin. The code picks by load, which gives max-min fairness instead.

## Model

| member | source | states |
|---|---|---|
| `Scheduler.RunsAreSafe` | control-plane/cmd/scheduler/main.go:80-113 | Over every run of ticks, webhooks, bindings, pod reports and pod losses: for every selector with a board, with or without a provider, the unfinished pods on nodes with that board and provider plus those waiting for one are at most the slots of those nodes; no entity exceeds its worker limit, every worker row is well formed, jobs, workers and pods sit where the routes put them, no pod name reaches ProvisionRunner twice; and between any two states of the run terminal rows and set columns are unchanged |
| `Scheduler.StepKeepsInvariant` | control-plane/cmd/scheduler/main.go:92-113 | Each single event, a tick included, keeps that invariant, whatever GitHub, Kubernetes and map iteration answer |
| `Scheduler.ShippedRunsAreSafe` | control-plane/internal/constants.go:96-205 | With the shipped routes and limits, in every reachable state riseproject-dev has at most 40 active workers, conda-forge 30 and anyone else 20, and the pods on and waiting for the nodes of any route fit their slots |
| `Scheduler.EmptyStoreIsSafe` | control-plane/cmd/scheduler/main.go:80-90 | The empty store satisfies the invariant, so runs exist |
| `Scheduler.MatchedCapacity` | control-plane/internal/k8s.go:304-355 | Demand match keeps every provider-bound pool within its total, for every order of selectors |
| `Scheduler.OccupantsFit` | control-plane/internal/k8s.go:304-355 | The step from the counter to the pods themselves: in a state of the invariant the occupants of a selector's nodes and the pods waiting for one fit its slots, for a whole board as well as for one provider |
| `Scheduler.TickStages` | control-plane/cmd/scheduler/main.go:92-113 | A tick converges the jobs first, runs worker sync on the converged jobs, and demand match then only adds rows and pods: every row and pod worker sync left is still there, unchanged |
| `Scheduler.TickPassesNobodyOver` | control-plane/cmd/scheduler/demand_match.go:19-85 | At the end of a tick, for each pending job: the pods on and waiting for its selector's nodes plus the slots spent on its selector equal the total, or the job has a reason in the log and the final store to need no further attempt |
| `Scheduler.QueuedJobIsStored` | control-plane/cmd/ghfe/webhook.go:274-334 | A complete delivery of a new job is stored under the first route that serves its entity and labels, with its labels sorted; an incomplete or repeated one changes nothing |
| `Scheduler.UnservedJobIsIgnored` | control-plane/cmd/ghfe/webhook.go:274-334 | A delivery no route serves changes nothing |
| `Scheduler.SyncedKept` | control-plane/cmd/scheduler/main.go:99-104 | Job sync and worker sync keep the invariant and only move rows forward |
| `Scheduler.BindingKept` | control-plane/internal/k8s.go:328-339 | Binding a pod to a node that satisfies its own nodeSelector keeps the invariant |
| `Scheduler.PoolHasOnePlacement` | control-plane/internal/db.go:436-449 | In every reachable state a job and a worker of one entity whose labels are permutations of each other carry the same selector and image, and the worker's pod sits there: why GetPoolDemand may ignore the selector |
| `Scheduler.TickRespectsDemand` | control-plane/cmd/scheduler/demand_match.go:134-198 | In one whole tick a pool never ends above the larger of what it held and its active jobs, and an entity gets no further attempt after its first rate-limited one |
| `Scheduler.HandleQueued` | control-plane/cmd/ghfe/webhook.go:274-334 | An unroutable queued job is ignored and an incomplete one refused, neither changing anything; a routable one is stored once with its placement and canonical labels, and the reply says which (which route that is: `Router.FirstMatchWins`, `Scheduler.QueuedJobIsStored`) |
| `Scheduler.RunIteration` | control-plane/cmd/scheduler/main.go:92-113 | The imperative tick is exactly the step of the run model, for the order the Go map happened to give, which lists each pending selector once, and keeps the invariant |
| `Allocator.MaxMinFairness` | control-plane/cmd/scheduler/demand_match.go:64-82 | When the loop for one selector stops, an entity that consumed a slot is at most one ahead of every entity that still has a job queued, whatever mix of consumed, skipped and rate-limited attempts occurred |
| `Allocator.SelectorIsFair` | control-plane/cmd/scheduler/demand_match.go:47-83 | The same for the whole treatment of a selector, in active pods at the start plus slots consumed since |
| `Allocator.ServeCountsLoad` | control-plane/cmd/scheduler/demand_match.go:77-80 | The load the queue compares is what an entity had plus what it consumed |
| `Allocator.ServeReachesEveryJob` | control-plane/cmd/scheduler/demand_match.go:64-82 | The loop stops only out of jobs or out of slots, and every job that left the queue was attempted or belongs to a backed-off entity |
| `Allocator.ServeJustifiesEveryJob` | control-plane/cmd/scheduler/demand_match.go:64-82 | When the loop ends with slots left, each of its jobs consumed a slot, is backed off, has no entity type, found all candidate names in use, or, in the final store, has as many active workers as active jobs in its pool or an entity at its limit: none was passed over |
| `Allocator.TickCapacity` | control-plane/cmd/scheduler/demand_match.go:47-83 | One demand match takes no pool past its total nor past what it already held, if no pending selector charges another's unscheduled pods |
| `Allocator.ServeCapacity` | control-plane/cmd/scheduler/demand_match.go:64-82 | The same for one selector's loop: slots bound the pods it can add |
| `Allocator.StepCapacity` | control-plane/cmd/scheduler/demand_match.go:69-80 | An attempt raises only its own selector's count, and by no more than the slots it consumes |
| `Allocator.LimitsAndDemand` | control-plane/cmd/scheduler/demand_match.go:134-166 | However a tick's attempts go, no entity exceeds the larger of its limit and its start, no pool the larger of its active jobs and its start |
| `Allocator.TickBacksOff` | control-plane/cmd/scheduler/demand_match.go:45-75 | No attempt for an entity follows its first rate-limited one, across all selectors of a tick |
| `Allocator.ReplayGrows` | control-plane/cmd/scheduler/demand_match.go:205-237 | No attempt touches an existing row or pod, new rows are well formed, and no name is passed to ProvisionRunner twice |
| `Allocator.ServeAllReplays` | control-plane/cmd/scheduler/demand_match.go:47-83 | Everything the loops do to the tables and the cluster is the sequence of their logged attempts |
| `Allocator.FreeNameIsFresh` | control-plane/cmd/scheduler/demand_match.go:213-236 | The reserved name is the first of five candidates no row uses; reserving fails exactly when all five are taken |
| `Allocator.TryShape` | control-plane/cmd/scheduler/demand_match.go:134-198 | An admitted attempt inserts one row under a fresh name, and at most one pod, of that name and that row's selector |
| `Allocator.GetPoolDemand` | control-plane/internal/db.go:436-449 | Counts the active jobs and workers of the pool named by the canonical labels |
| `Allocator.ReserveRunnerName` | control-plane/cmd/scheduler/demand_match.go:205-237 | The insert-and-retry loop takes the first free candidate and stores the job's placement under it |
| `Allocator.CheckRoom` | control-plane/cmd/scheduler/demand_match.go:141-166 | True exactly if the pool has more active jobs than active workers and the entity fewer active workers than its limit: the configured one, 20 if unconfigured, none if configured without a number |
| `Allocator.Launch` | control-plane/cmd/scheduler/demand_match.go:168-198 | A rate limit or any failure retires the reserved row with its reason; only the rate limit leaves the slot unconsumed |
| `Allocator.TryProvision` | control-plane/cmd/scheduler/demand_match.go:134-198 | The imperative attempt is the specified one, store and verdict |
| `Allocator.ServeOne` | control-plane/cmd/scheduler/demand_match.go:47-83 | The imperative loop for one selector is the specified one |
| `Allocator.GroupBySelector` | control-plane/cmd/scheduler/demand_match.go:35-39 | Grouping keeps, per selector, exactly its pending jobs in order |
| `Allocator.DemandMatch` | control-plane/cmd/scheduler/demand_match.go:19-85 | The whole method is the specified one for some order of the distinct selectors of pending jobs |
| `Allocator.RoomIff` | control-plane/cmd/scheduler/demand_match.go:141-166 | The test in counts of pending and running rows: more active jobs than active workers in the pool, and the entity under its limit |
| `Service.AgreedAttemptIsServed` | control-plane/cmd/scheduler/demand_match.go:134-198 | A wanted job with a free name is served when GitHub and Kubernetes agree: the attempt consumes a slot and adds exactly one pending row with the job's identity, sorted labels and placement, the repository only for users, and one unbound pod labelled with its board, provider and entity |
| `Service.ServedAttemptCounts` | control-plane/cmd/scheduler/demand_match.go:134-198 | Being served adds one active worker to the pool and to the entity, and one pod to the selector's count |
| `Service.UnwantedIsSkipped` | control-plane/cmd/scheduler/demand_match.go:134-166 | Entity type unknown, demand met, limit reached or all five names taken: nothing changes and no slot is used |
| `Service.RateLimitedAttempt` | control-plane/cmd/scheduler/demand_match.go:168-198 | A rate-limited attempt uses no slot, leaves a failed row that says so and no pod |
| `Service.FailedAttempt` | control-plane/cmd/scheduler/demand_match.go:168-198 | Any other failure uses a slot and leaves a failed row; only a create call that took effect before its error leaves a pod |
| `Service.TickServesOrExplains` | control-plane/cmd/scheduler/demand_match.go:19-85 | Over a whole demand match, for any order that has the selector once: its slots are used up exactly, by the pods it had and the attempts made for its jobs, or each of its pending jobs is accounted for by its type, its pool's counts, its entity's limit, a rate-limited attempt of its entity, or an attempt of its own |
| `Service.ServeSpends` | control-plane/cmd/scheduler/demand_match.go:64-82 | The loop for one selector pays each consumed attempt with one slot, never overdraws, and leaves separate selectors alone |
| `Service.ServeExplainsLimits` | control-plane/cmd/scheduler/demand_match.go:69-75 | An entity is backed off only if GitHub rate limited an attempt of its own |
| `FairQueue.PopIndexIsLeast` | control-plane/cmd/scheduler/demand_match.go:100-119 | The chosen job is the least of all queued jobs by (active[entity], created_at, job_id) |
| `FairQueue.PoppedFirst` | control-plane/cmd/scheduler/demand_match.go:100-119 | Against every other queued job the popped one has the lower load, or the same load and an earlier creation time, or the same time and a smaller id |
| `FairQueue.LeastIsUnique` | control-plane/cmd/scheduler/demand_match.go:100-119 | No second job is least, so map iteration order cannot matter |
| `FairQueue.HeadIsOldest` | control-plane/cmd/scheduler/demand_match.go:92-98 | The head of an entity's list is that entity's oldest queued job: why scanning heads suffices |
| `FairQueue.FairJobQueue.ScannedIsLeast` | control-plane/cmd/scheduler/demand_match.go:100-109 | The head-only scan finds the global minimum |
| `FairQueue.DrainIsPermutation` | control-plane/cmd/scheduler/demand_match.go:87-119 | Draining the queue returns each job once, whatever the loads do meanwhile |
| `FairQueue.DrainKeepsFifo` | control-plane/cmd/scheduler/demand_match.go:87-119 | Draining keeps each entity's FIFO order, whatever the loads do meanwhile |
| `FairQueue.RemoveLeast` | control-plane/cmd/scheduler/demand_match.go:110-118 | Popping takes the head off its own list and leaves the other lists alone |
| `FairQueue.FairJobQueue.LenIsSummedLengths` | control-plane/cmd/scheduler/demand_match.go:87-98 | `len` is the summed length of the lists and no list is empty |
| `FairQueue.FairJobQueue.constructor` | control-plane/cmd/scheduler/demand_match.go:92-98 | The per-entity lists partition the given order |
| `FairQueue.FairJobQueue.ScanHeads` | control-plane/cmd/scheduler/demand_match.go:101-109 | Returns a list head that precedes every other head, for any iteration order |
| `FairQueue.FairJobQueue.Pop` | control-plane/cmd/scheduler/demand_match.go:100-119 | Returns the least queued job and removes exactly it, keeping the queue valid |
| `Cluster.CapacityBoundIff` | control-plane/internal/k8s.go:328-339 | Creating pods only into free slots keeps every pool of a set of selectors bounded in every run if and only if no two of them with a board share it while one lacks a provider |
| `Cluster.MixedSelectorsOvercommit` | control-plane/internal/k8s.go:336-337 | The failing input: two board-only pods fill a provider pool of one slot |
| `Cluster.SeparateRunsStayBounded` | control-plane/internal/k8s.go:304-355 | The bound over every run of creations for separate selectors |
| `Cluster.BindingNeverRaises` | control-plane/internal/k8s.go:334-339 | Binding a pod to a node it may run on makes it count nowhere it did not count before |
| `Cluster.NewPodCountsAgainst` | control-plane/internal/k8s.go:64-78 | Exactly which selectors a newly created pod is charged to |
| `Cluster.CreationCounts` | control-plane/internal/k8s.go:304-355 | A created pod adds one to its own selector and nothing to a separate one |
| `Cluster.LatestIsMaximum` | control-plane/internal/contract.go:319-330 | FinishedAt is the maximum termination time over all containers, absent exactly when none terminated |
| `Cluster.FinishedAt` | control-plane/internal/contract.go:319-330 | The accumulator loop computes that value over main and init containers |
| `Cluster.KubeClient.AvailableSlots` | control-plane/internal/k8s.go:304-355 | Total slots, active pods and active pods by entity of the pool, the active ones being those on its nodes plus those waiting for one; error exactly for an empty selector |
| `Cluster.CountedPods` | control-plane/internal/k8s.go:328-342 | Which pods a lookup counts: an unfinished pod with a node counts exactly if a node of that name has the selector's board and, if set, provider; one without a node exactly if its board agrees and the providers do not differ |
| `Cluster.TotalAddsUp` | control-plane/internal/k8s.go:308-322 | Slots add up over nodes, and a node gives its slots to exactly the selectors whose board and provider it has |
| `Cluster.BoardIsBounded` | control-plane/internal/k8s.go:304-355 | If every provider's pool of a board is bounded and every pod is provider-bound, the whole board is bounded |
| `Cluster.KubeClient.CountNodes` | control-plane/internal/k8s.go:308-322 | Node names and summed slots of the pool |
| `Cluster.KubeClient.ProvisionRunner` | control-plane/internal/k8s.go:49-107 | Creates one pod with the selector as labels and nodeSelector, refusing empty selectors and taken names |
| `Cluster.KubeClient.KillPod` | control-plane/internal/k8s.go:287-294 | Patches the deadline of an existing pod, an absent one is a success |
| `Cluster.KubeClient.DeletePod` | control-plane/internal/k8s.go:242-258 | Removes the pod, an absent one is a success |
| `Reconcile.ReconcileIdempotent` | control-plane/cmd/scheduler/sync_workers.go:17-75 | Against the same clock and answers, apart from the deletions the first run made, a second run changes no worker row, workers whose runner deletion was refused included |
| `Reconcile.SecondRunKeepsActive` | control-plane/cmd/scheduler/sync_workers.go:236-354 | The case that needs work: a row the first run left active is judged alike by the second, although runners were deleted in between |
| `Reconcile.KeptWorkerKeepsRunner` | control-plane/cmd/scheduler/sync_workers.go:329-404 | Nothing a run deletes on GitHub changes the runner lookup of a worker it keeps |
| `Reconcile.PostReconcileAgreement` | control-plane/cmd/scheduler/sync_workers.go:38-152 | After a run each pending or running row has a pod in the snapshot that has not finished, does not run while the row is pending and sits on no listed unreachable node; and that pod is untouched |
| `Reconcile.LostPodsAreRetired` | control-plane/cmd/scheduler/sync_workers.go:145-150 | A pod a run patched or removed has a row that is terminal or absent afterwards |
| `Reconcile.StaleSnapshotIsHarmless` | control-plane/cmd/scheduler/sync_workers.go:38-46 | PodPhaseSync on the rows read before phase 1 has the effect of a fresh read, for any two lookbacks |
| `Reconcile.SyncForward` | control-plane/internal/db.go:481-534 | A run neither adds nor drops rows, leaves terminal rows alone, overwrites no set running_at or completed_at and keeps every row well formed |
| `Reconcile.CleanupSeesWholeTable` | control-plane/cmd/scheduler/sync_workers.go:377-404 | For any lookback phase 4 asks to delete a cached, prefixed runner exactly when the whole table has no active row of that name |
| `Reconcile.RefusedWorkerIsLeftAlone` | control-plane/cmd/scheduler/sync_workers.go:329-338 | A worker whose runner GitHub refused to delete keeps its row and its pod, and phase 4 of the same run does not ask for that runner |
| `Reconcile.LookupStable` | control-plane/cmd/scheduler/sync_workers.go:191-232 | Deleting runners of other names does not change the lookup of a name |
| `Reconcile.LateListing` | control-plane/cmd/scheduler/sync_workers.go:191-232 | A listing taken later in phase 3 lacks only runners deleted in between |
| `Reconcile.HealthDeletesOthers` | control-plane/cmd/scheduler/sync_workers.go:329-338 | Phase 3 deletes only runners named after workers it retires |
| `Reconcile.CleanupDeletesOthers` | control-plane/cmd/scheduler/sync_workers.go:377-404 | Phase 4 deletes no runner of an active worker |
| `Reconcile.WorkingWorkerSurvives` | control-plane/cmd/scheduler/sync_workers.go:17-75 | A running worker whose pod lives on a reachable node, and that GitHub shows busy or that has run its job and unregistered, comes out of a run with row and pod untouched |
| `Reconcile.OverdueWorkerIsRetired` | control-plane/cmd/scheduler/sync_workers.go:155-354 | An active worker in agreement with the cluster is failed by a run once it is overdue without an excuse, if its scope authenticates and GitHub lets go of its runner |
| `Reconcile.HealthDeadlines` | control-plane/cmd/scheduler/sync_workers.go:236-319 | The health checks fail no worker before its timeout, none that GitHub shows busy and none that ran a job and unregistered, and every other active worker once it is overdue by the longest timeout |
| `Fate.FinishedPodDecides` | control-plane/cmd/scheduler/sync_workers.go:97-121 | After a run an active worker whose pod Succeeded is Completed without a failure, one whose pod Failed is Failed with reason PodFailed; completed_at is the latest container termination, else now, and a set node is kept |
| `Fate.FollowedAfterPhase2` | control-plane/cmd/scheduler/sync_workers.go:97-121 | A pending worker whose pod runs becomes Running on that pod's node, since its first running runner container started, else since the pod was ready, else now; any other row with an unfinished pod is untouched by phase 2 |
| `Fate.LivePodDecides` | control-plane/cmd/scheduler/sync_workers.go:155-353 | The row a run leaves for a worker with an unfinished pod on no lost node: failed now for the deadline it missed (600 s pending, 120 s unregistered or offline without having run a job, 600 s idle) if its scope authenticates and GitHub lets go of its runner, else the row as phase 2 left it |
| `Fate.PodlessIsCompleted` | control-plane/cmd/scheduler/sync_workers.go:86-94 | An active worker without a pod is completed now, nothing else in its row changes |
| `Fate.LostNodeFails` | control-plane/cmd/scheduler/sync_workers.go:126-152 | A worker whose unfinished pod sits on a node with the unreachable taint is failed now for that reason |
| `Fate.FinishedPodFate` | control-plane/cmd/scheduler/sync_workers.go:407-427 | A finished pod is removed exactly if it finished, or was created if no container terminated, 21600 seconds or more ago and the API server accepts |
| `Fate.LostPodFate` | control-plane/cmd/scheduler/sync_workers.go:126-152 | A stranded pod is removed exactly if the API server accepts, and is otherwise untouched |
| `Fate.LivePodFate` | control-plane/cmd/scheduler/sync_workers.go:329-353 | Any other pod stays; its deadline is patched exactly if the run retired its active row and the API server accepts |
| `Fate.StaleRunnerIsDeleted` | control-plane/cmd/scheduler/sync_workers.go:377-404 | A registered runner with our prefix and no active worker is deleted if some active worker keeps its scope in view, the scope authenticates both times and GitHub accepts |
| `Fate.FailedWorkersRunnerIsDeleted` | control-plane/cmd/scheduler/sync_workers.go:329-338 | The runner of a worker the health checks fail is deleted |
| `Fate.DeletionHasCause` | control-plane/cmd/scheduler/sync_workers.go:329-404 | Every deletion is one of those two: the runner of a worker this run failed, or a stale one of a scope that authenticates both times, and GitHub accepted it |
| `Fate.ScopeIs` | control-plane/cmd/scheduler/sync_workers.go:191-200 | The GitHub scope of a worker: its organization, or for a user the repository of its row, through its installation |
| `Fate.RegisteredIs` | control-plane/cmd/scheduler/sync_workers.go:191-232 | What a lookup finds: the runner of that name GitHub lists in the scope and has not deleted since, for a repository only with our prefix, nobody if the listing failed |
| `Fate.UnlistedRunIsIdle` | control-plane/cmd/scheduler/sync_workers.go:17-37 | A run that cannot list the nodes or the pods changes nothing |
| `Fate.DeletedRunnersAreStale` | control-plane/cmd/scheduler/sync_workers.go:329-404 | No deleted runner bears an active worker's name afterwards |
| `Reconciler.SyncWorkersState` | control-plane/cmd/scheduler/sync_workers.go:17-75 | The imperative pipeline is the specified one for every iteration order; unchanged when nodes or pods cannot be listed |
| `Reconciler.OrphanSweep` | control-plane/cmd/scheduler/sync_workers.go:86-94 | Retires exactly the active rows of the snapshot that have no pod |
| `Reconciler.PodPhaseSync` | control-plane/cmd/scheduler/sync_workers.go:97-121 | Applies to each row the write its pod's phase calls for, judged on the snapshot row |
| `Reconciler.UnreachableNodeCheck` | control-plane/cmd/scheduler/sync_workers.go:126-152 | Fails exactly the active rows whose pod sits on an unreachable node and force-deletes those pods, each after its row was retired |
| `Reconciler.HealthChecks` | control-plane/cmd/scheduler/sync_workers.go:155-187 | Grouping, authentication, memoised listings and the decision tree act on each worker as if every listing had been taken first |
| `Reconciler.FetchGHRunners` | control-plane/cmd/scheduler/sync_workers.go:191-232 | Returns and caches the last runner of each name, repositories filtered by prefix, empty when the listing failed |
| `Reconciler.ClassifyWorker` | control-plane/cmd/scheduler/sync_workers.go:236-319 | The decision tree in source order has the specified outcome on rows, pods and runners |
| `Reconciler.FailAndCleanup` | control-plane/cmd/scheduler/sync_workers.go:329-353 | A refused deletion aborts everything; otherwise the row is failed before its pod is killed |
| `Reconciler.GroupByScope` | control-plane/cmd/scheduler/sync_workers.go:156-163 | Each active worker is in the group of its own scope and in no other, and no group is empty |
| `Reconciler.GitHubCleanup` | control-plane/cmd/scheduler/sync_workers.go:377-404 | Deletes exactly the cached, prefixed runners whose worker is terminal or unknown, per re-authenticated scope |
| `Reconciler.CleanupFromIdealCache` | control-plane/cmd/scheduler/sync_workers.go:191-232 | Cleaning up from listings taken at different moments of phase 3 leaves what listings all taken first would leave |
| `Reconciler.DeleteTerminalPods` | control-plane/cmd/scheduler/sync_workers.go:407-427 | Deletes exactly the terminal pods past the grace window; may be called only when every finished pod's row is retired |
| `Reconciler.FinishedPodsAreRetired` | control-plane/cmd/scheduler/sync_workers.go:97-121 | Phase 2 already retired every active row with a finished pod: what phase 5 relies on |
| `Reconciler.Kill` | control-plane/cmd/scheduler/sync_workers.go:348-351 | KillPod is only reached when the pod's row is terminal or absent |
| `Reconciler.Delete` | control-plane/cmd/scheduler/sync_workers.go:148-150 | ForceDeletePod and DeletePod are only reached when the pod's row is terminal or absent |
| `Reconciler.GitHub.DeleteRunner` | control-plane/cmd/scheduler/sync_workers.go:356-374 | A deletion succeeds on 204 and on 404, and only removes that runner |
| `Workers.RowLifecycle` | control-plane/internal/db.go:462-534 | Under any sequence of updates terminal status is absorbing, completed_at is set exactly when terminal, failure_info exactly when failed, running implies running_at, and set columns never change |
| `Workers.AddCounts` | control-plane/internal/db.go:451-458 | A fresh active row adds one to its own entity's count and nothing to another's |
| `Workers.AddPoolCounts` | control-plane/internal/db.go:436-449 | A fresh active row adds one to its own pool's count and nothing to another's |
| `Workers.RetiringCounts` | control-plane/internal/db.go:436-458 | Retiring rows raises no entity's and no pool's count |
| `Workers.WorkerTable.AddWorker` | control-plane/internal/db.go:462-479 | The insert succeeds exactly when the name is free and never overwrites |
| `Workers.WorkerTable.MarkWorkerRunning` | control-plane/internal/db.go:481-491 | The guarded update on the whole table |
| `Workers.WorkerTable.MarkWorkerCompleted` | control-plane/internal/db.go:493-503 | The guarded update on the whole table |
| `Workers.WorkerTable.MarkWorkerFailed` | control-plane/internal/db.go:505-523 | The guarded update on the whole table |
| `Workers.WorkerTable.MarkWorkerOrphaned` | control-plane/internal/db.go:525-534 | The guarded update on the whole table |
| `Workers.AbsentMeansLongDone` | control-plane/internal/db.go:590-604 | A row missing from the reconcile read does not exist or completed no later than the lookback allows, so no active row is ever missing and entity and pool counts taken from it are those of the table |
| `Jobs.ConfluenceIff` | control-plane/internal/db.go:209-266 | Order and multiplicity of a job's webhook writes never matter if and only if in_progress and completed agree on the runner name and on a start time the in_progress write carries |
| `Jobs.DeliveredFactsStand` | control-plane/internal/db.go:157-266 | When the two kinds of facts agree, any deliveries leave the completed facts in the row if a completed one got through, else the in-progress ones, else the row as inserted |
| `Jobs.LaterFactsFillGaps` | control-plane/internal/db.go:209-266 | When they disagree, a column the in-progress write set is kept and the completed write fills the others |
| `Jobs.FirstFailureStands` | control-plane/internal/db.go:272-303 | A row given up on is Failed with the reason, keeps what in-progress deliveries had set, and ignores what comes later |
| `Jobs.DeliveriesSettle` | control-plane/internal/db.go:157-266 | The row any deliveries settle on depends only on whether a completed or an in_progress write occurred |
| `Jobs.FirstTerminalWins` | control-plane/internal/db.go:240-303 | With MarkJobFailed in the mix, nothing after the first terminal write has any effect |
| `Jobs.SetColumnsNeverChange` | control-plane/internal/db.go:209-303 | No write sequence changes a set pod, timing or conclusion column, a terminal row, or identity and placement |
| `Jobs.OldestFirstSorts` | control-plane/internal/db.go:344-354 | ORDER BY created_at, job_id lists each pending job once in strict order |
| `Jobs.PendingJobsAreSorted` | control-plane/internal/db.go:344-354 | The list has exactly the pending jobs, each once, by creation time and then by id |
| `Jobs.JobTable.AddJob` | control-plane/internal/db.go:157-199 | Inserts a fresh row or leaves the conflicting one alone |
| `Jobs.JobTable.MarkJobRunning` | control-plane/internal/db.go:209-238 | The guarded update, returning the status before the call on every path |
| `Jobs.JobTable.MarkJobCompleted` | control-plane/internal/db.go:240-270 | The guarded update, returning the status before the call on every path |
| `Jobs.JobTable.MarkJobFailed` | control-plane/internal/db.go:272-303 | The guarded update, returning the status before the call on every path |
| `Jobs.JobTable.GetPendingJobs` | control-plane/internal/db.go:344-354 | The pending jobs, oldest first |
| `Jobs.SyncOneJob` | control-plane/cmd/scheduler/sync_jobs.go:31-125 | Issues for one job the write GitHub's answers call for, in every error case |
| `Jobs.SyncJobsState` | control-plane/cmd/scheduler/sync_jobs.go:18-29 | Converges every active job, independently of the loop order |
| `Jobs.SyncAgreesWithGitHub` | control-plane/cmd/scheduler/sync_jobs.go:31-125 | The row a sync leaves for every combination of answers: untouched when GitHub is not asked or does not answer, failed with its reason when the installation or job is gone or the job stayed queued ten minutes under a completed run, completed or running with GitHub's facts in the columns not yet set, else untouched |
| `Jobs.SyncMakesUpForLostWebhooks` | control-plane/cmd/scheduler/sync_jobs.go:31-91 | Whatever deliveries about a job got through and in whatever order, a sync that sees the completed facts leaves the row the completed delivery would have left, which no late delivery changes; likewise in progress |
| `Jobs.SyncIdempotent` | control-plane/cmd/scheduler/sync_jobs.go:18-125 | Against unchanged answers a second sync changes nothing |
| `Labels.KeyIffPermutation` | control-plane/internal/contract.go:531-541 | Two label lists get equal keys exactly when they are permutations of each other |
| `Labels.CanonicalSorts` | control-plane/internal/contract.go:531-541 | The key is the sorted permutation of the labels |
| `Labels.SortedUnique` | control-plane/internal/contract.go:531-541 | A multiset of labels has one sorted list |
| `Labels.LeqIsLexicographic` | control-plane/internal/contract.go:531-541 | The order is byte order: a prefix first, else the first difference decides |
| `Labels.KeyIdempotent` | control-plane/internal/contract.go:531-541 | A stored key is its own key |
| `Labels.Sink` | control-plane/internal/contract.go:535-537 | The inner swap loop inserts one label into the sorted prefix and leaves the rest alone |
| `Labels.SortedJSON` | control-plane/internal/contract.go:531-541 | The copy-and-swap sort computes the key |
| `Router.MatchIsPermutation` | control-plane/cmd/ghfe/payload.go:117-133 | With distinct labels in the route, equal lengths and one-sided inclusion hold exactly for permutations |
| `Router.FirstMatchWins` | control-plane/cmd/ghfe/payload.go:117-133 | A job is placed by the first route that is for everybody or its entity and lists exactly its labels |
| `Router.UnroutableIff` | control-plane/cmd/ghfe/payload.go:117-133 | A job is unroutable exactly when no route is for it |
| `Router.OwnRouteWins` | control-plane/cmd/ghfe/payload.go:117-133 | In a table with named entities first and no ties, an entity's own route beats the global one, which serves everybody without one |
| `Router.ShippedOwnRouteWins` | control-plane/internal/constants.go:96-188 | The shipped table is such a table |
| `Router.Rva23Placement` | control-plane/internal/constants.go:96-188 | For instance ubuntu-24.04-riscv with rva23, in any order: ruyiai and riseproject-dev get spacemit-k3/iscas, everybody else spacemit-k3/rise |
| `Router.DuplicateLabelsMisroute` | control-plane/cmd/ghfe/payload.go:125-129 | Without that, the test accepts a list that is no permutation |
| `Router.KeyDeterminesPlacement` | control-plane/cmd/ghfe/payload.go:117-133 | Jobs of one entity with equal keys match the same route |
| `Router.PlacementIsProviderBound` | control-plane/cmd/ghfe/payload.go:117-133 | A match yields a route of the table that matches, with a provider in its selector (which one: `Router.FirstMatchWins`) |
| `Router.TableWellFormed` | control-plane/internal/constants.go:96-188 | Every route of the table pins board and provider and lists its labels once |
| `GitHubCache.CachedClientIsCurrent` | control-plane/internal/github.go:418-511 | However requests, stores, revalidations and evictions interleave, every 200 delivered for a GET is the representation of that URL and token at an instant while the request ran, or at one whose poll interval had not run out when it began; and the cache stays within CacheMax |
| `GitHubCache.StepKeeps` | control-plane/internal/github.go:418-511 | Each locked section keeps the invariant behind it |
| `GitHubCache.KeyInjective` | control-plane/internal/github.go:513-520 | Equal cache keys mean equal method, URL and token |
| `GitHubCache.StoreKeepsKeys` | control-plane/internal/github.go:490-511 | Cache keys equal the duplicate-free order list, stay within the bound, and what was just stored is never evicted by its own store |
| `GitHubCache.LookUpKeeps` | control-plane/internal/github.go:437-453 | A hit inside the poll window hands out the entry of that very URL and token |
| `GitHubCache.RenewKeeps` | control-plane/internal/github.go:474-479 | A 304 vouches for the entry the request holds, even if it was evicted or replaced meanwhile |
| `Cooldown.RunKeepsPromiseIff` | control-plane/internal/github.go:422-472 | A run keeps the promise in all its states, no armed instant forgotten and no request outstanding before one, if and only if each denial in it cuts no running cooldown short and leaves no request of its token past the gate and unsent |
| `Cooldown.StepKeepsPromiseIff` | control-plane/internal/github.go:422-472 | The same for one step of any kind |
| `Cooldown.CleanRunsSendOnTime` | control-plane/internal/github.go:422-435 | While the denials of a run are clean in that sense, nothing is sent with a token before the latest instant a 403 or 429 armed for it |
| `Cooldown.UncleanSendsEarly` | control-plane/internal/github.go:463-472 | After a denial that is not, the machine can go on, without any further denial, to send a request early; a request still in its gate counts unless the cache is about to answer it |
| `Cooldown.NothingSentWhileCooling` | control-plane/internal/github.go:422-435 | With one request at a time per token every denial is clean, and whatever is sent even began no earlier than the latest instant armed for its token |
| `Cooldown.ArmHonoursIff` | control-plane/internal/github.go:464-472 | Arming keeps every earlier instant covered exactly when it cuts no running cooldown short |
| `Cooldown.OverlapCutsCooldownShort` | control-plane/internal/github.go:464-472 | A reachable run of two overlapping denials after which a third request is sent 30 seconds before the first armed instant |
| `Cooldown.OverlapOvertakesDenial` | control-plane/internal/github.go:422-472 | A reachable run in which no cooldown is shortened and a request let through before the denial is sent 99 seconds before the armed instant |
| `Cooldown.RefusalsAreOwn` | control-plane/internal/github.go:422-435 | In every run a refused request began before an instant armed by a denial of its own token: no token holds another one back |
| `Cooldown.CleanRunsRefuse` | control-plane/internal/github.go:422-435 | While the denials of a run are clean, a request with an instant of its token ahead is refused |
| `GitHubCache.AloneIsARun` | control-plane/internal/github.go:418-485 | An undisturbed request is a run of the interleaved machine |
| `GitHubCache.PollWindowServesOldPage` | control-plane/internal/github.go:437-449 | Inside a poll window a caller does get a page the server has replaced, so the second half of the freshness claim is needed |
| `GitHubCache.AssumptionsAreMet` | control-plane/internal/github.go:513-520 | The assumptions on server and hash hold of a page that changes and two tokens, so the theorems are about something |
| `GitHubCache.GHClient.StoreResp` | control-plane/internal/github.go:490-511 | The store-and-evict loop is the specified section |
| `GitHubCache.GHClient.DoRequest` | control-plane/internal/github.go:418-485 | The imperative request has the specified effect and response for every answer, network failure included |
| `ClientLaws.RefusedAfterDenial` | control-plane/internal/github.go:422-472 | Over two requests: after a 403 or 429 the next request with the token is refused exactly while it begins before the start plus Retry-After if that is present and not negative, else the reset instant if remaining is 0, else the start plus 60 for a 429, else not at all; other tokens are not affected |
| `ClientLaws.ArmedAreDenials` | control-plane/internal/github.go:463-472 | In every run the instants on record for a token are exactly those its denials asked for in these four cases, so the cooldown theorems are about GitHub's answers |
| `ClientLaws.CleanRunsHonourDenials` | control-plane/internal/github.go:422-472 | In a clean run no request with the token is sent before the instant a denial asked for |
| `ClientLaws.SerialRunsHonourDenials` | control-plane/internal/github.go:422-472 | With one request at a time per token, in every run, what is sent after a denial began no earlier than the instant it asked for |
| `ClientLaws.RefusedOnlyAfterDenial` | control-plane/internal/github.go:422-435 | Whoever is turned away at the gate began before an instant a denial of its own token asked for |
| `ClientLaws.DenialArms` | control-plane/internal/github.go:528-549 | What a denial leaves in the client: that instant for its token or none, everything else as it was |
| `ClientLaws.AnsweredThenAsked` | control-plane/internal/github.go:437-485 | A GET answered 200 without no-store is repeated from memory exactly while the next one begins less than its poll interval after it began |
| `ClientLaws.RenewedThenAsked` | control-plane/internal/github.go:474-479 | A 304 hands on what is kept and restarts that window with the new interval |
| `ClientLaws.OthersLeaveTheCache` | control-plane/internal/github.go:437-485 | A non-GET is never served from memory, and only a 200 or a 304 to a GET changes what is kept |
| `ClientLaws.StoreDropsOldest` | control-plane/internal/github.go:490-511 | A new page beyond the bound pushes out the oldest page and no other; otherwise nothing is dropped |
| `TokenCache.JustStoredIsLostIff` | control-plane/internal/github.go:171-178 | A store loses the token it just stored exactly when the list is full and its oldest position belongs to the same key |
| `TokenCache.OthersAreKept` | control-plane/internal/github.go:171-178 | Another key loses its token exactly when it heads a full list |
| `TokenCache.RememberBounded` | control-plane/internal/github.go:171-178 | Token keys stay included in the order list and the list within TokenMax, although keys repeat in it |
| `TokenCache.TrimKeepsIff` | control-plane/internal/github.go:174-177 | A key survives trimming exactly when none of its occurrences is dropped |
| `TokenCache.ServedTokensAreValid` | control-plane/internal/github.go:144-180 | Whatever the interleaving, a served token was issued to the same installation and app and stored under 59 minutes before, so it is unexpired on GitHub if storing it took at most a minute |
| `TokenCache.TokenStore.AuthenticateApp` | control-plane/internal/github.go:144-180 | Serves an unexpired token, else stores and returns GitHub's, else nothing |
| `TokenCache.StoredIsServedIff` | control-plane/internal/github.go:144-180 | After a store, that token is served exactly until 3540 seconds later unless the store pushed it out, and every other key is served as before unless it was the oldest of a full list |
| `Watchdog.RestartsSpaced` | runner/ansible/roles/userspace/templates/kubelet-watchdog.sh.j2:24-42 | Over any probes with a non-decreasing clock, restarts are at least 900 seconds apart |
| `Watchdog.HourlyBound` | runner/ansible/roles/userspace/templates/kubelet-watchdog.sh.j2:24-42 | Any half-open hour holds at most 4 restarts |
| `Watchdog.RestartNeedsThreeFailures` | runner/ansible/roles/userspace/templates/kubelet-watchdog.sh.j2:10-22 | Each restart is the third or later failed probe in a row with no success and no restart between |
| `Watchdog.RestartIff` | runner/ansible/roles/userspace/templates/kubelet-watchdog.sh.j2:10-42 | The script restarts exactly when the last three probes failed, neither of the two before this one restarted, and every earlier restart is 900 seconds old or more |
| `Watchdog.PruningKeepsDecision` | runner/ansible/roles/userspace/templates/kubelet-watchdog.sh.j2:26-33 | Pruning the history never changes the spacing decision, now or later |
| `Watchdog.HourLimitNeverReached` | runner/ansible/roles/userspace/templates/kubelet-watchdog.sh.j2:34-37 | Once the spacing test passes, the hourly limit cannot be reached: that branch is dead |
| `Watchdog.RecentIsSuffix` | runner/ansible/roles/userspace/templates/kubelet-watchdog.sh.j2:26 | The prune drops a prefix of the history and nothing else |
| `Watchdog.Script.RateLimited` | runner/ansible/roles/userspace/templates/kubelet-watchdog.sh.j2:24-37 | The two rate limits of the script amount to the spacing test on the unpruned history |
| `Watchdog.Script.Check` | runner/ansible/roles/userspace/templates/kubelet-watchdog.sh.j2:10-42 | Each run of the script decides as the reference machine without pruning and hourly limit |
| `Slots.SlotProtocol` | scripts/scw.py:208-264 | Under every interleaving permits plus holders equal the job limit, the pool size is the limit plus the workers between bump and decrement, and when all are done everything was given back |
| `Slots.StepKeepsBalance` | scripts/scw.py:226-243 | Each critical section keeps both balances and the max(1, ...) clamp never fires |
| `Slots.SomeStepEnabled` | scripts/scw.py:226-264 | An unfinished item means some critical section can run, and a queued item is only counted on when the pool has a thread for it |
| `Slots.Concurrency.YieldBump` | scripts/scw.py:232-235 | The pool half of yield_slot is that protocol step |
| `Slots.Concurrency.ResumeShrink` | scripts/scw.py:238-243 | The pool half of resume_slot is that protocol step |
| `Slots.Throttle.Wait` | scripts/scw.py:186-206 | Returns the later of now and `delay` after the previous release, and the releases are those of the clock readings so far |
| `Slots.StartGapIff` | scripts/scw.py:186-206 | Items that start at most `slack` after the throttle releases them are `gap` apart in every run of `wait` if and only if `gap` is `max(0, delay) - slack` or less |
| `Slots.StartsWithOverrun` | scripts/scw.py:186-206 | The half that holds, for every sequence of clock readings |
| `Slots.OverrunShrinksGap` | scripts/scw.py:186-206 | The half that fails: two calls of `wait` at one instant, the first item late by `slack` |
| `Slots.ReleasesApart` | scripts/scw.py:194-204 | Every sequence of `wait` calls releases at instants at least `delay` apart |
| `Slots.ReleasesAreEarliest` | scripts/scw.py:194-204 | No schedule that is `delay` apart and not before the clock readings releases any call earlier |
| `Slots.AcquireBlocksIff` | scripts/scw.py:208-264 | An item the throttle released can be kept waiting for a permit if and only if workers yield and there are more items than jobs: only then does a start lag its release by more than the sleep overran |
| `Slots.YieldBlocksAnother` | scripts/scw.py:232-243 | The blocking run: one worker yields, the hosted item passes the throttle, the worker takes its permit back first |
| `Slots.Concurrency.RunItem` | scripts/scw.py:315-332 | A worker nobody interferes with gives back every permit and every thread, however often its item yields |
| `Slots.CollectUsed` | scripts/scw.py:854-862 | Indices of every page up to the first empty one |
| `Slots.UsedIff` | scripts/scw.py:854-862 | An index counts as used exactly if a page lists it and neither that page nor an earlier one is empty |
| `Slots.AllocateRunnerNames` | scripts/scw.py:850-870 | Returns the `count` smallest unused indices in order |
| `Slots.SmallestFreeUnique` | scripts/scw.py:863-870 | That answer is unique |
| `Pivot.PivotConserves` | control-plane/cmd/scheduler/weekly_usage.go:39-123 | The grand total is the sum over the input rows, and equals the sums taken by week and by entity |
| `Pivot.Transposed` | control-plane/cmd/scheduler/weekly_usage.go:75-123 | Week totals and entity totals of any table add up to the same |
| `Pivot.FiguresAreRowSums` | control-plane/cmd/scheduler/weekly_usage.go:39-123 | A cell is the sum of the input rows of its week and entity, an entity's total that of its rows, a week's total that of its rows |
| `Pivot.RankedByRows` | control-plane/cmd/scheduler/weekly_usage.go:66-72 | Entities are listed by the minutes their rows add up to, longest first, then in byte order of the name |
| `Pivot.AllRowsAddUp` | control-plane/cmd/scheduler/weekly_usage.go:39-61 | Those sums are of minutes for one figure and of jobs for the other |
| `Pivot.ChartConserves` | control-plane/cmd/scheduler/weekly_usage.go:251-289 | In every week the series of a chart, "Other" included, add up to the total of the eligible entities |
| `Pivot.FullChartIsWeekTotal` | control-plane/cmd/scheduler/weekly_usage.go:251-304 | The unfiltered chart adds up to the week totals |
| `Pivot.NamedSeriesOutweighFolded` | control-plane/cmd/scheduler/weekly_usage.go:251-289 | Every named series totals at least as much as every entity folded into "Other", in both charts |
| `Pivot.EligibleIsSubsequence` | control-plane/cmd/scheduler/weekly_usage.go:259-265 | Filtering drops exactly the excluded entities and keeps the ranking |
| `Pivot.ExcludedIff` | control-plane/cmd/scheduler/weekly_usage.go:19-23 | The filtered chart leaves out riseproject-dev and names starting with riseproject-dev/, and nobody else |
| `Pivot.ChartShows` | control-plane/cmd/scheduler/weekly_usage.go:251-289 | A chart shows the first seven eligible entities in rank order with the minutes of their rows of each week, and "Other" as the eighth series exactly if there are more |
| `Pivot.BuildPivot` | control-plane/cmd/scheduler/weekly_usage.go:39-73 | Each week and entity once, ranked, each cell the sum of its rows |
| `Pivot.RankEntities` | control-plane/cmd/scheduler/weekly_usage.go:66-72 | Entities by total duration descending, then by name |
| `Pivot.EntitySum` | control-plane/cmd/scheduler/weekly_usage.go:75-89 | The accumulator loops over weeks |
| `Pivot.WeekSum` | control-plane/cmd/scheduler/weekly_usage.go:91-105 | The accumulator loops over entities |
| `Pivot.GrandSum` | control-plane/cmd/scheduler/weekly_usage.go:107-121 | The accumulator loops over weeks of week totals |
| `Pivot.BuildSeries` | control-plane/cmd/scheduler/weekly_usage.go:259-289 | One series for each of the top seven eligible entities, the rest summed into "Other" exactly when there is a rest |

## Left out

- HTTP servers, webhook signatures and payload parsing, HTML and SVG rendering, logging: input and output only.
- PostgreSQL, client-go, JWT and JSON internals: rows, pods and label lists are values; the JSON text of a label list is the sorted list it encodes.
- Rollback of a failed tick: Kubernetes and GitHub effects are not undone with the transaction, so the claims are about ticks that commit.
- Webhooks arriving in the middle of a tick: the jobs table is not locked, but each tick is modelled as one step.
- Failure diagnostics, log and event collection, payload trimming: field copies; the failure reason is kept, its details are not.
- Runner listing pages: `paginatedRunners` and `nextLink` appear as one answer per scope, so a cycle of next links is not modelled.
- The wire format of headers: a header is the number it parses to, or nothing.
- sort.Slice and the SQL ORDER BY: represented by the order they promise, not by an algorithm.
- 64-bit overflow of usage sums and of header durations: both are unbounded integers.
- The thread pool of scw.py beyond its size, keyboard interrupts, SSH, Ansible and Scaleway calls.
- Quality of random suffixes: candidates are arbitrary, the insert decides.
- containerd-watchdog.sh.j2: the same machine as the kubelet watchdog.
- Device plugin, SoC detection, image builds, version sync, the weekly SQL aggregation: constant tables and plumbing.
