/** What a demand match owes the pending jobs, told in counts, rows and pods: what each kind of
    answer makes of an attempt, and that a tick serves a job or has a reason not to. */
module Service {
  import opened Base
  import opened Jobs
  import opened Cluster
  import opened Allocator
  import F = FairQueue
  import Labels
  import W = Workers

  // ---- one attempt ----

  /** The first candidate name no row uses is the i-th. */
  ghost predicate FirstFree(workers: W.Rows, candidates: nat -> string, i: nat) {
    && i < 5 && candidates(i) !in workers
    && forall k: nat :: k < i ==> candidates(k) in workers
  }

  lemma {:induction false} FirstFreeIs(workers: W.Rows, candidates: nat -> string, i: nat, from: nat)
    requires FirstFree(workers, candidates, i) && from <= i
    ensures FreeName(workers, candidates, from) == Some(candidates(i))
    decreases i - from
  {
    if from < i {
      FirstFreeIs(workers, candidates, i, from + 1);
    }
  }

  /** The job is one tryProvision goes on with: entity type known, demand unmet, below the limit. */
  ghost predicate Wanted(st: Store, j: Job, configs: map<Id, Option<nat>>, key: seq<string>) {
    && j.kind.Some? && Labels.Sorted(key) && multiset(key) == multiset(j.labels)
    && !DemandMet(st.workers, st.jobs, j.entity, key) && !AtLimit(st.workers, configs, j.entity)
  }

  lemma WantedIs(st: Store, j: Job, configs: map<Id, Option<nat>>, key: seq<string>)
    requires j.kind.Some? && Labels.Sorted(key) && multiset(key) == multiset(j.labels)
    ensures Wanted(st, j, configs, key) <==> HasRoom(st.workers, st.jobs, j, configs)
    ensures key == Labels.Canonical(j.labels)
  {
    Labels.CanonicalSorts(j.labels);
    Labels.SortedUnique(key, Labels.Canonical(j.labels));
    RoomIff(st.workers, st.jobs, j, configs);
  }

  /** The row an attempt inserts: the job's identity and placement, the repository only for users. */
  function Row(j: Job, key: seq<string>, status: Status, failure: Option<W.Reason>, done: Option<int>): W.Worker
    requires j.kind.Some?
  {
    W.Worker(j.entity, j.kind.value, j.entityName, j.installation, if j.kind == Some(User) then Some(j.repo) else None,
             key, j.selector, j.image, if failure.Some? then Some("") else None, status, failure, None, done)
  }

  /** A pod as the create call leaves it: labelled with the job's placement and entity, unbound. */
  function Unbound(j: Job, now: int): Pod {
    Pod(j.selector.board, j.selector.provider, Some(j.entity), PodPending, "", now, [], [], None, false)
  }

  /** Who is left alone: unknown entity type, demand met, limit reached, or no free name. */
  lemma UnwantedIsSkipped(st: Store, j: Job, configs: map<Id, Option<nat>>, key: seq<string>, now: int, a: Allocator.Answer)
    requires Labels.Sorted(key) && multiset(key) == multiset(j.labels)
    requires !Wanted(st, j, configs, key) || forall i: nat :: i < 5 ==> a.candidates(i) in st.workers
    ensures Try(st, j, configs, now, a) == (st, Skipped)
  {
    FreeNameIsFresh(st.workers, a.candidates, 0);
    if j.kind.Some? {
      WantedIs(st, j, configs, key);
    }
  }

  /** A wanted job with a free name is served.  When GitHub and Kubernetes agree, the attempt
      adds one active row and one unbound pod labelled with the job's board, provider and entity. */
  lemma AgreedAttemptIsServed(st: Store, j: Job, configs: map<Id, Option<nat>>, key: seq<string>, now: int, a: Allocator.Answer, i: nat)
    requires Wanted(st, j, configs, key) && FirstFree(st.workers, a.candidates, i)
    requires a.github == JitIssued && a.create == Created && j.selector.board != "" && a.candidates(i) !in st.pods
    ensures var name := a.candidates(i);
      var row, pod := Row(j, key, Pending, None, None), Unbound(j, now);
      Try(st, j, configs, now, a) ==
        (Store(st.workers[name := row], st.jobs, st.pods[name := pod], st.requested + [name]), Consumed)
  {
    WantedIs(st, j, configs, key);
    FirstFreeIs(st.workers, a.candidates, i, 0);
  }

  /** A rate-limited token costs no slot and leaves a failed row saying so. */
  lemma RateLimitedAttempt(st: Store, j: Job, configs: map<Id, Option<nat>>, key: seq<string>, now: int, a: Allocator.Answer, i: nat)
    requires Wanted(st, j, configs, key) && FirstFree(st.workers, a.candidates, i) && a.github == GitHubAnswer.RateLimited
    ensures var row := Row(j, key, Failed, Some(W.RateLimited), Some(now));
      Try(st, j, configs, now, a) == (st.(workers := st.workers[a.candidates(i) := row]), BackedOff)
  {
    WantedIs(st, j, configs, key);
    FirstFreeIs(st.workers, a.candidates, i, 0);
  }

  /** Any other failure costs a slot and leaves a failed row; a create call that came back with
      an error after taking effect also leaves the pod, for worker sync to collect. */
  lemma FailedAttempt(st: Store, j: Job, configs: map<Id, Option<nat>>, key: seq<string>, now: int, a: Allocator.Answer, i: nat)
    requires Wanted(st, j, configs, key) && FirstFree(st.workers, a.candidates, i)
    requires a.github == GitHubError
             || (a.github == JitIssued && (a.create != Created || j.selector.board == "" || a.candidates(i) in st.pods))
    ensures var name := a.candidates(i);
      var row, pod := Row(j, key, Failed, Some(W.PodAllocationFailure), Some(now)), Unbound(j, now);
      var asked := a.github == JitIssued;
      var left := asked && a.create == CreatedWithError && j.selector.board != "" && name !in st.pods;
      Try(st, j, configs, now, a) ==
        (Store(st.workers[name := row], st.jobs,
               if left then st.pods[name := pod] else st.pods,
               if asked then st.requested + [name] else st.requested), Consumed)
  {
    WantedIs(st, j, configs, key);
    FirstFreeIs(st.workers, a.candidates, i, 0);
  }

  /** What being served means in counts: one more active worker in the pool and the entity, one
      more pod charged to the selector. */
  lemma ServedAttemptCounts(st: Store, j: Job, configs: map<Id, Option<nat>>, key: seq<string>, now: int, a: Allocator.Answer, i: nat,
                            nodes: seq<Node>)
    requires Wanted(st, j, configs, key) && FirstFree(st.workers, a.candidates, i)
    requires a.github == JitIssued && a.create == Created && j.selector.board != "" && a.candidates(i) !in st.pods
    ensures var st' := Try(st, j, configs, now, a).0;
      && |W.ActiveInPool(st'.workers, j.entity, key)| == |W.ActiveInPool(st.workers, j.entity, key)| + 1
      && |W.ActiveOf(st'.workers, j.entity)| == |W.ActiveOf(st.workers, j.entity)| + 1
      && |ActivePods(st'.pods, nodes, j.selector)| == |ActivePods(st.pods, nodes, j.selector)| + 1
  {
    AgreedAttemptIsServed(st, j, configs, key, now, a, i);
    var name, row := a.candidates(i), Row(j, key, Pending, None, None);
    W.AddPoolCounts(st.workers, name, row, j.entity, key);
    W.AddCounts(st.workers, name, row, j.entity);
    CreationCounts(st.pods, nodes, name, j.selector, j.selector, j.entity, now);
  }

  // ---- a whole tick ----

  /** The attempts since the tick began that used up a slot of the selector. */
  function SpentOn(log: seq<Attempt>, sel: NodeSelector): set<nat> {
    set k: nat | k < |log| && log[k].job.selector == sel && log[k].verdict == Consumed
  }

  lemma SpentOnGrows(log: seq<Attempt>, a: Attempt, sel: NodeSelector)
    ensures |SpentOn(log + [a], sel)| == |SpentOn(log, sel)| + if a.job.selector == sel && a.verdict.Consumed? then 1 else 0
  {
    if a.job.selector == sel && a.verdict.Consumed? {
      assert SpentOn(log + [a], sel) == SpentOn(log, sel) + {|log|};
    } else {
      assert SpentOn(log + [a], sel) == SpentOn(log, sel);
    }
  }

  lemma StepSpends(l: Loop, j: Job, env: Env, sel: NodeSelector)
    ensures var l' := Step(l, j, env);
      && |SpentOn(l'.d.log, sel)| - |SpentOn(l.d.log, sel)| == (if j.selector == sel then l.slots - l'.slots else 0)
      && l'.slots >= l.slots - 1
  {
    if j.entity !in l.d.limited {
      var a := env.answers(|l.d.log|);
      StepUnfolds(l, j, env, a);
      SpentOnGrows(l.d.log, Attempt(j, a, Try(l.d.st, j, env.configs, env.now, a).1), sel);
    }
  }

  /** The loop for one selector pays each consumed attempt with one slot, never with more slots
      than there are, and leaves every separate selector's pods and slots alone. */
  lemma {:induction false} ServeSpends(rest: seq<Job>, l: Loop, env: Env, sel: NodeSelector, b: NodeSelector)
    requires Separate(sel, b) && forall j :: j in rest ==> j.selector == sel
    ensures var l' := Serve(rest, l, env).1;
      && |SpentOn(l'.d.log, b)| - |SpentOn(l.d.log, b)| == (if b == sel then l.slots - l'.slots else 0)
      && (l.slots >= 0 ==> l'.slots >= 0) && (l.slots <= 0 ==> l' == l)
      && (b != sel ==> |ActivePods(l'.d.st.pods, env.nodes, b)| == |ActivePods(l.d.st.pods, env.nodes, b)|)
    decreases |rest|
  {
    if rest != [] && l.slots > 0 {
      var i := F.PopIndex(rest, l.load);
      assert rest[i] in rest && forall x :: x in F.Remove(rest, i) ==> x in rest;
      StepSpends(l, rest[i], env, b);
      StepCapacity(l, rest[i], env, b);
      ServeSpends(F.Remove(rest, i), Step(l, rest[i], env), env, sel, b);
    }
  }

  /** A backed-off entity owes that to an attempt of its own that GitHub rate limited. */
  ghost predicate LimitsExplained(d: Demand) {
    forall e :: e in d.limited ==> exists k :: 0 <= k < |d.log| && LimitedFor(d.log[k], e)
  }

  ghost predicate LimitedFor(a: Attempt, e: Id) {
    a.job.entity == e && a.answer.github == GitHubAnswer.RateLimited && a.verdict == BackedOff
  }

  lemma StepExplainsLimits(l: Loop, j: Job, env: Env)
    requires LimitsExplained(l.d)
    ensures LimitsExplained(Step(l, j, env).d)
  {
    if j.entity !in l.d.limited {
      var a := env.answers(|l.d.log|);
      var l' := Step(l, j, env);
      StepUnfolds(l, j, env, a);
      forall e | e in l'.d.limited ensures exists k :: 0 <= k < |l'.d.log| && LimitedFor(l'.d.log[k], e) {
        if e in l.d.limited {
          var k :| 0 <= k < |l.d.log| && LimitedFor(l.d.log[k], e);
          assert l'.d.log[k] == l.d.log[k];
        } else {
          assert LimitedFor(l'.d.log[|l.d.log|], e);
        }
      }
    }
  }

  lemma {:induction false} ServeExplainsLimits(rest: seq<Job>, l: Loop, env: Env)
    requires LimitsExplained(l.d)
    ensures LimitsExplained(Serve(rest, l, env).1.d)
    decreases |rest|
  {
    if rest != [] && l.slots > 0 {
      var i := F.PopIndex(rest, l.load);
      StepExplainsLimits(l, rest[i], env);
      ServeExplainsLimits(F.Remove(rest, i), Step(l, rest[i], env), env);
    }
  }

  /** What one selector's turn keeps of everything the other turns rely on. */
  ghost predicate TurnGrows(d: Demand, d': Demand) {
    d.log <= d'.log && d.limited <= d'.limited && OnlyAdds(d.st, d'.st) && LimitsExplained(d')
  }

  lemma TurnOf(sel: NodeSelector, pending: seq<Job>, d: Demand, env: Env, b: NodeSelector)
    requires InOrder(pending) && LimitsExplained(d) && ((exists j :: j in pending && j.selector == sel) ==> Separate(sel, b))
    ensures var d' := ServeSelector(sel, ForSelector(pending, sel), d, env);
      && TurnGrows(d, d')
      && (sel != b ==> |SpentOn(d'.log, b)| == |SpentOn(d.log, b)|
                       && |ActivePods(d'.st.pods, env.nodes, b)| == |ActivePods(d.st.pods, env.nodes, b)|)
  {
    var jobs, l := ForSelector(pending, sel), InitialLoop(sel, d, env);
    ForSelectorMembers(pending, sel);
    ServeJustifiesEveryJob(jobs, l, env);
    ServeExplainsLimits(jobs, l, env);
    if jobs != [] {
      assert jobs[0] in jobs;
      ServeSpends(jobs, l, env, sel, b);
    }
  }

  /** The slots of a selector are used up exactly, or none was left to use from the start. */
  ghost predicate UsedUp(d: Demand, d': Demand, nodes: seq<Node>, sel: NodeSelector) {
    |ActivePods(d.st.pods, nodes, sel)| + |SpentOn(d'.log, sel)| - |SpentOn(d.log, sel)| ==
    Max(Total(nodes, sel), |ActivePods(d.st.pods, nodes, sel)|)
  }

  lemma OwnTurn(sel: NodeSelector, pending: seq<Job>, d: Demand, env: Env)
    requires InOrder(pending) && sel.Valid() && env.slotsKnown(sel)
    ensures var d' := ServeSelector(sel, ForSelector(pending, sel), d, env);
      UsedUp(d, d', env.nodes, sel)
      || forall j :: j in pending && j.selector == sel ==> Justified(j, d', |d.log|, env.configs)
  {
    var jobs, l := ForSelector(pending, sel), InitialLoop(sel, d, env);
    ForSelectorMembers(pending, sel);
    ServeJustifiesEveryJob(jobs, l, env);
    ServeSpends(jobs, l, env, sel, sel);
  }

  lemma {:induction false} OtherTurns(order: seq<NodeSelector>, pending: seq<Job>, d: Demand, env: Env, b: NodeSelector)
    requires InOrder(pending) && LimitsExplained(d) && b !in order
    requires forall j :: j in pending ==> Separate(j.selector, b)
    ensures var d' := ServeAll(order, pending, d, env);
      TurnGrows(d, d') && |SpentOn(d'.log, b)| == |SpentOn(d.log, b)|
    decreases |order|
  {
    if order != [] {
      var d1 := ServeSelector(order[0], ForSelector(pending, order[0]), d, env);
      TurnOf(order[0], pending, d, env, b);
      OtherTurns(order[1..], pending, d1, env, b);
    }
  }

  lemma {:induction false} TickJustifies(order: seq<NodeSelector>, pending: seq<Job>, d: Demand, env: Env, sel: NodeSelector)
    requires InOrder(pending) && LimitsExplained(d) && sel in order && sel.Valid() && env.slotsKnown(sel)
    requires forall i, k :: 0 <= i < k < |order| ==> order[i] != order[k]
    requires forall j :: j in pending ==> Separate(j.selector, sel)
    ensures var d' := ServeAll(order, pending, d, env);
      && TurnGrows(d, d')
      && (UsedUp(d, d', env.nodes, sel)
          || forall j :: j in pending && j.selector == sel ==> Justified(j, d', 0, env.configs))
    decreases |order|
  {
    var d1 := ServeSelector(order[0], ForSelector(pending, order[0]), d, env);
    var d' := ServeAll(order, pending, d, env);
    TurnOf(order[0], pending, d, env, sel);
    if order[0] == sel {
      OwnTurn(sel, pending, d, env);
      OtherTurns(order[1..], pending, d1, env, sel);
      if !UsedUp(d, d', env.nodes, sel) {
        forall j | j in pending && j.selector == sel ensures Justified(j, d', 0, env.configs) {
          JustifiedStays(j, d1, d', |d.log|, 0, env.configs);
        }
      }
    } else {
      TickJustifies(order[1..], pending, d1, env, sel);
    }
  }

  /** Why a tick left a job without a further attempt, from its log and its final store. */
  ghost predicate Explained(j: Job, d: Demand, configs: map<Id, Option<nat>>) {
    || j.kind.None?
    || DemandMet(d.st.workers, d.st.jobs, j.entity, Labels.Canonical(j.labels))
    || AtLimit(d.st.workers, configs, j.entity)
    || (exists k :: 0 <= k < |d.log| && LimitedFor(d.log[k], j.entity))
    || (exists k :: 0 <= k < |d.log| && AttemptedFor(d.log[k], j, d.st.workers))
  }

  /** The attempt consumed a slot for the job, or all five of its candidate names are in use. */
  ghost predicate AttemptedFor(a: Attempt, j: Job, workers: W.Rows) {
    a.job == j && (a.verdict == Consumed || forall i: nat :: i < 5 ==> a.answer.candidates(i) in workers)
  }

  /** Nobody is passed over: at the end of a tick either the selector's slots are used up, by
      the pods it had and the attempts made for its jobs, or every one of its pending jobs has
      a reason, in the final store, to need no further attempt. */
  lemma TickServesOrExplains(order: seq<NodeSelector>, pending: seq<Job>, st: Store, env: Env, sel: NodeSelector)
    requires InOrder(pending) && sel in order && sel.Valid() && env.slotsKnown(sel)
    requires forall i, k :: 0 <= i < k < |order| ==> order[i] != order[k]
    requires forall j :: j in pending ==> Separate(j.selector, sel)
    ensures var d := ServeAll(order, pending, Demand(st, {}, []), env);
      || |ActivePods(st.pods, env.nodes, sel)| + |SpentOn(d.log, sel)| ==
         Max(Total(env.nodes, sel), |ActivePods(st.pods, env.nodes, sel)|)
      || forall j :: j in pending && j.selector == sel ==> Explained(j, d, env.configs)
  {
    var d0 := Demand(st, {}, []);
    var d := ServeAll(order, pending, d0, env);
    assert SpentOn([], sel) == {};
    TickJustifies(order, pending, d0, env, sel);
    if !UsedUp(d0, d, env.nodes, sel) {
      forall j | j in pending && j.selector == sel ensures Explained(j, d, env.configs) {
        assert Justified(j, d, 0, env.configs);
        if k :| 0 <= k < |d.log| && Answered(j, d, k) {
          assert AttemptedFor(d.log[k], j, d.st.workers);
        }
      }
    }
  }
}
