/** scripts/scw.py: the slot-yielding semaphore, the start throttle and the name allocator. */
module Slots {
  import opened Base

  /** Where one submitted item is.  Yielding bumps the pool, then releases the permit;
      resuming takes a permit, then shrinks the pool: four separate critical sections. */
  datatype Phase = Queued | Waiting | Holding | Bumped | Parked | Resumed | Done

  datatype Action = Start | Acquire | Release | BumpPool | ReleaseForYield | AcquireAgain | ShrinkPool

  datatype State = State(permits: int, pool: int, tasks: seq<Phase>)

  function Before(a: Action): Phase {
    match a
    case Start => Queued
    case Acquire => Waiting
    case Release => Holding
    case BumpPool => Holding
    case ReleaseForYield => Bumped
    case AcquireAgain => Parked
    case ShrinkPool => Resumed
  }

  function After(a: Action): Phase {
    match a
    case Start => Waiting
    case Acquire => Holding
    case Release => Done
    case BumpPool => Bumped
    case ReleaseForYield => Parked
    case AcquireAgain => Resumed
    case ShrinkPool => Holding
  }

  /** A semaphore acquire blocks at zero permits; nothing else blocks. */
  predicate Possible(s: State, t: int, a: Action) {
    && 0 <= t < |s.tasks|
    && s.tasks[t] == Before(a)
    && (a.Acquire? || a.AcquireAgain? ==> s.permits > 0)
  }

  function Next(s: State, t: int, a: Action): State
    requires Possible(s, t, a)
  {
    var permits := match a
      case Acquire => s.permits - 1
      case AcquireAgain => s.permits - 1
      case Release => s.permits + 1
      case ReleaseForYield => s.permits + 1
      case _ => s.permits;
    var pool := match a
      case BumpPool => s.pool + 1
      case ShrinkPool => Max(1, s.pool - 1)
      case _ => s.pool;
    State(permits, pool, s.tasks[t := After(a)])
  }

  predicate HoldsPermit(p: Phase) { p.Holding? || p.Bumped? || p.Resumed? }
  predicate EnlargesPool(p: Phase) { p.Bumped? || p.Parked? || p.Resumed? }
  predicate OnThread(p: Phase) { !p.Queued? && !p.Done? }

  function Count(tasks: seq<Phase>, p: Phase -> bool): nat {
    if tasks == [] then 0
    else Count(tasks[1..], p) + if p(tasks[0]) then 1 else 0
  }

  ghost predicate Inv(s: State, jobs: int) {
    && 1 <= jobs
    && 0 <= s.permits
    && s.permits + Count(s.tasks, HoldsPermit) == jobs
    && s.pool == jobs + Count(s.tasks, EnlargesPool)
  }

  lemma {:induction false} CountUpdate(tasks: seq<Phase>, t: nat, x: Phase, p: Phase -> bool)
    requires t < |tasks|
    ensures Count(tasks[t := x], p) ==
            Count(tasks, p) - (if p(tasks[t]) then 1 else 0) + (if p(x) then 1 else 0)
  {
    var tasks' := tasks[t := x];
    if t == 0 {
      assert tasks'[1..] == tasks[1..];
    } else {
      assert tasks'[1..] == tasks[1..][t - 1 := x];
      CountUpdate(tasks[1..], t - 1, x, p);
    }
  }

  lemma {:induction false} CountWitness(tasks: seq<Phase>, p: Phase -> bool) returns (t: nat)
    requires Count(tasks, p) > 0
    ensures t < |tasks| && p(tasks[t])
  {
    if p(tasks[0]) {
      t := 0;
    } else {
      t := CountWitness(tasks[1..], p);
      t := t + 1;
    }
  }

  lemma {:induction false} CountZero(tasks: seq<Phase>, p: Phase -> bool)
    requires forall t :: 0 <= t < |tasks| ==> !p(tasks[t])
    ensures Count(tasks, p) == 0
  {
    if tasks != [] {
      CountZero(tasks[1..], p);
    }
  }

  /** Every critical section keeps both balances, and max(1, ...) never clamps. */
  lemma StepKeepsBalance(s: State, jobs: int, t: int, a: Action)
    requires Inv(s, jobs) && Possible(s, t, a)
    ensures Inv(Next(s, t, a), jobs)
    ensures a.ShrinkPool? ==> s.pool - 1 >= jobs && Next(s, t, a).pool == s.pool - 1
  {
    CountUpdate(s.tasks, t, After(a), HoldsPermit);
    CountUpdate(s.tasks, t, After(a), EnlargesPool);
    if a.ShrinkPool? && Count(s.tasks, EnlargesPool) == 0 {
      CountAtLeastOne(s.tasks, t, EnlargesPool);
    }
  }

  lemma {:induction false} CountAtLeastOne(tasks: seq<Phase>, t: nat, p: Phase -> bool)
    requires t < |tasks| && p(tasks[t])
    ensures Count(tasks, p) >= 1
  {
    if t > 0 {
      CountAtLeastOne(tasks[1..], t - 1, p);
    }
  }

  function Initial(jobs: int, items: nat): State {
    State(jobs, jobs, seq(items, _ => Queued))
  }

  /** The schedule picks one task and one critical section at a time. */
  predicate Schedulable(s: State, schedule: seq<(int, Action)>)
    decreases |schedule|
  {
    schedule == [] ||
    (Possible(s, schedule[0].0, schedule[0].1) && Schedulable(Next(s, schedule[0].0, schedule[0].1), schedule[1..]))
  }

  function Run(s: State, schedule: seq<(int, Action)>): State
    requires Schedulable(s, schedule)
    decreases |schedule|
  {
    if schedule == [] then s else Run(Next(s, schedule[0].0, schedule[0].1), schedule[1..])
  }

  lemma {:induction false} RunKeepsBalance(s: State, jobs: int, schedule: seq<(int, Action)>)
    requires Inv(s, jobs) && Schedulable(s, schedule)
    ensures Inv(Run(s, schedule), jobs)
    decreases |schedule|
  {
    if schedule != [] {
      var (t, a) := schedule[0];
      StepKeepsBalance(s, jobs, t, a);
      RunKeepsBalance(Next(s, t, a), jobs, schedule[1..]);
    }
  }

  /** At most `jobs` items run at once, under every interleaving; when all are done,
      every permit and every extra thread has been given back. */
  lemma SlotProtocol(jobs: int, items: nat, schedule: seq<(int, Action)>)
    requires jobs >= 1 && Schedulable(Initial(jobs, items), schedule)
    ensures var s := Run(Initial(jobs, items), schedule);
      && Inv(s, jobs)
      && Count(s.tasks, HoldsPermit) <= jobs
      && ((forall t :: 0 <= t < |s.tasks| ==> s.tasks[t].Done?) ==> s.permits == jobs && s.pool == jobs)
  {
    var s0 := Initial(jobs, items);
    CountZero(s0.tasks, HoldsPermit);
    CountZero(s0.tasks, EnlargesPool);
    RunKeepsBalance(s0, jobs, schedule);
    var s := Run(s0, schedule);
    if forall t :: 0 <= t < |s.tasks| ==> s.tasks[t].Done? {
      CountZero(s.tasks, HoldsPermit);
      CountZero(s.tasks, EnlargesPool);
    }
  }

  /** No deadlock: an unfinished item means some critical section can run, and a queued
      item is only counted on when the pool still has a thread for it. */
  lemma SomeStepEnabled(s: State, jobs: int, unfinished: nat) returns (t: nat, a: Action)
    requires Inv(s, jobs)
    requires unfinished < |s.tasks| && !s.tasks[unfinished].Done?
    ensures Possible(s, t, a)
    ensures a.Start? ==> Count(s.tasks, OnThread) < s.pool
  {
    t := unfinished;
    if Count(s.tasks, HoldsPermit) > 0 {
      t := CountWitness(s.tasks, HoldsPermit);
    } else if Count(s.tasks, OnThread) > 0 {
      t := CountWitness(s.tasks, OnThread);
    }
    a := match s.tasks[t]
      case Queued => Start
      case Waiting => Acquire
      case Bumped => ReleaseForYield
      case Parked => AcquireAgain
      case Resumed => ShrinkPool
      case _ => Release;
  }

  /** The semaphore and the executor's pool size; `tasks` is the ghost view of its users. */
  class Concurrency {
    var sem: int
    var maxWorkers: int
    ghost var tasks: seq<Phase>

    ghost function View(): State reads this { State(sem, maxWorkers, tasks) }

    constructor (jobs: int, items: nat)
      requires jobs >= 1
      ensures View() == Initial(jobs, items)
    {
      sem, maxWorkers, tasks := jobs, jobs, seq(items, _ => Queued);
    }

    ghost method StartTask(t: nat)
      requires Possible(View(), t, Start)
      modifies this`tasks
      ensures View() == Next(old(View()), t, Start)
    {
      tasks := tasks[t := Waiting];
    }

    method Acquire(ghost t: nat)
      requires Possible(View(), t, Action.Acquire)
      modifies this
      ensures View() == Next(old(View()), t, Action.Acquire)
    {
      sem := sem - 1;
      tasks := tasks[t := Holding];
    }

    method Release(ghost t: nat)
      requires Possible(View(), t, Action.Release)
      modifies this
      ensures View() == Next(old(View()), t, Action.Release)
    {
      sem := sem + 1;
      tasks := tasks[t := Done];
    }

    /** First half of yield_slot, under the pool lock. */
    method YieldBump(ghost t: nat)
      requires Possible(View(), t, BumpPool)
      modifies this
      ensures View() == Next(old(View()), t, BumpPool)
    {
      maxWorkers := maxWorkers + 1;
      tasks := tasks[t := Bumped];
    }

    method YieldRelease(ghost t: nat)
      requires Possible(View(), t, ReleaseForYield)
      modifies this
      ensures View() == Next(old(View()), t, ReleaseForYield)
    {
      sem := sem + 1;
      tasks := tasks[t := Parked];
    }

    method ResumeAcquire(ghost t: nat)
      requires Possible(View(), t, AcquireAgain)
      modifies this
      ensures View() == Next(old(View()), t, AcquireAgain)
    {
      sem := sem - 1;
      tasks := tasks[t := Resumed];
    }

    /** Second half of resume_slot, under the pool lock. */
    method ResumeShrink(ghost t: nat)
      requires Possible(View(), t, ShrinkPool)
      modifies this
      ensures View() == Next(old(View()), t, ShrinkPool)
    {
      maxWorkers := Max(1, maxWorkers - 1);
      tasks := tasks[t := Holding];
    }

    /** One item nobody interferes with, its function yielding any number of times: the
        worker of _run_parallel gives back every permit and every thread it took. */
    method RunItem(ghost t: nat, times: nat)
      requires t < |tasks| && tasks[t] == Queued && sem > 0 && maxWorkers >= 1
      modifies this
      ensures sem == old(sem) && maxWorkers == old(maxWorkers) && tasks == old(tasks)[t := Done]
    {
      StartTask(t);
      Acquire(t);
      for i := 0 to times
        invariant sem == old(sem) - 1 && maxWorkers == old(maxWorkers) && tasks == old(tasks)[t := Holding]
      {
        YieldBump(t);
        YieldRelease(t);
        ResumeAcquire(t);
        ResumeShrink(t);
      }
      Release(t);
    }
  }

  // ---- when acquiring after the throttle blocks ----

  /** The executor's threads: as many as the pool ever allowed, for none exits before the end. */
  datatype Hosting = Hosting(s: State, threads: int)

  /** A queued item starts on a free thread only. */
  predicate HostedPossible(h: Hosting, t: int, a: Action) {
    Possible(h.s, t, a) && (a.Start? ==> Count(h.s.tasks, OnThread) < h.threads)
  }

  function HostedNext(h: Hosting, t: int, a: Action): Hosting
    requires HostedPossible(h, t, a)
  {
    Hosting(Next(h.s, t, a), Max(h.threads, Next(h.s, t, a).pool))
  }

  /** `mayYield` tells whether workers yield at all. */
  ghost predicate Reaches(h: Hosting, h': Hosting, mayYield: bool, steps: nat)
    decreases steps
  {
    if steps == 0 then h' == h
    else exists mid, t, a :: Reaches(h, mid, mayYield, steps - 1) && HostedStep(mid, h', t, a) && (a.BumpPool? ==> mayYield)
  }

  ghost predicate HostedStep(h: Hosting, h': Hosting, t: int, a: Action) {
    HostedPossible(h, t, a) && h' == HostedNext(h, t, a)
  }

  ghost predicate Reachable(jobs: int, items: nat, mayYield: bool, h: Hosting) {
    exists steps :: Reaches(Hosting(Initial(jobs, items), jobs), h, mayYield, steps)
  }

  /** Past the throttle, and no permit to be had. */
  predicate Blocked(s: State, t: nat) { t < |s.tasks| && s.tasks[t].Waiting? && s.permits <= 0 }

  ghost predicate HostedInv(h: Hosting, jobs: int, items: nat, mayYield: bool) {
    && Inv(h.s, jobs) && |h.s.tasks| == items && h.threads >= h.s.pool
    && Count(h.s.tasks, OnThread) <= h.threads
    && (!mayYield ==> h.threads == jobs)
  }

  lemma StepKeepsHosted(h: Hosting, h': Hosting, t: int, a: Action, jobs: int, items: nat, mayYield: bool)
    requires HostedInv(h, jobs, items, mayYield) && HostedStep(h, h', t, a) && (a.BumpPool? ==> mayYield)
    ensures HostedInv(h', jobs, items, mayYield)
  {
    StepKeepsBalance(h.s, jobs, t, a);
    CountUpdate(h.s.tasks, t, After(a), OnThread);
  }

  lemma {:induction false} ReachableKeeps(h: Hosting, jobs: int, items: nat, mayYield: bool, steps: nat)
    requires jobs >= 1 && Reaches(Hosting(Initial(jobs, items), jobs), h, mayYield, steps)
    ensures HostedInv(h, jobs, items, mayYield)
    decreases steps
  {
    if steps == 0 {
      CountZero(h.s.tasks, HoldsPermit);
      CountZero(h.s.tasks, EnlargesPool);
      CountZero(h.s.tasks, OnThread);
    } else {
      var mid, t, a :| Reaches(Hosting(Initial(jobs, items), jobs), mid, mayYield, steps - 1)
                       && HostedStep(mid, h, t, a) && (a.BumpPool? ==> mayYield);
      ReachableKeeps(mid, jobs, items, mayYield, steps - 1);
      StepKeepsHosted(mid, h, t, a, jobs, items, mayYield);
    }
  }

  /** Whoever waits is on a thread and holds nothing. */
  lemma {:induction false} WaiterHoldsNothing(tasks: seq<Phase>, t: nat)
    requires t < |tasks| && tasks[t].Waiting?
    ensures Count(tasks, HoldsPermit) + 1 <= Count(tasks, OnThread)
    ensures Count(tasks, OnThread) <= |tasks|
  {
    HoldersAreOnThreads(tasks[1..]);
    if t > 0 {
      WaiterHoldsNothing(tasks[1..], t - 1);
    }
  }

  lemma {:induction false} HoldersAreOnThreads(tasks: seq<Phase>)
    ensures Count(tasks, HoldsPermit) <= Count(tasks, OnThread) <= |tasks|
  {
    if tasks != [] {
      HoldersAreOnThreads(tasks[1..]);
    }
  }

  lemma NobodyBlocked(h: Hosting, jobs: int, items: nat, mayYield: bool, t: nat)
    requires HostedInv(h, jobs, items, mayYield) && (!mayYield || items <= jobs)
    ensures !Blocked(h.s, t)
  {
    if t < |h.s.tasks| && h.s.tasks[t].Waiting? {
      WaiterHoldsNothing(h.s.tasks, t);
    }
  }

  /** The first `k` items hold permits, the others are queued. */
  function Filled(jobs: int, items: nat, k: nat): Hosting {
    Hosting(State(jobs - k, jobs, seq(items, i => if i < k then Holding else Queued)), jobs)
  }

  lemma {:induction false} CountFilled(items: nat, k: nat)
    requires k <= items
    ensures Count(seq(items, i => if i < k then Holding else Queued), OnThread) == k
  {
    var tasks := seq(items, i => if i < k then Holding else Queued);
    if k == 0 {
      CountZero(tasks, OnThread);
    } else {
      var before := seq(items, i => if i < k - 1 then Holding else Queued);
      CountFilled(items, k - 1);
      assert tasks == before[k - 1 := Holding];
      CountUpdate(before, k - 1, Holding, OnThread);
    }
  }

  lemma Onward(h: Hosting, mid: Hosting, h': Hosting, t: int, a: Action, mayYield: bool, steps: nat)
    requires Reaches(h, mid, mayYield, steps) && HostedStep(mid, h', t, a) && (a.BumpPool? ==> mayYield)
    ensures Reaches(h, h', mayYield, steps + 1)
  {
  }

  lemma FillOne(jobs: int, items: nat, k: nat) returns (started: Hosting)
    requires k < jobs && k < items
    ensures HostedStep(Filled(jobs, items, k), started, k, Start)
    ensures HostedStep(started, Filled(jobs, items, k + 1), k, Acquire)
  {
    var h := Filled(jobs, items, k);
    CountFilled(items, k);
    started := HostedNext(h, k, Start);
    assert started.s.tasks[k := Holding] == Filled(jobs, items, k + 1).s.tasks;
  }

  lemma {:induction false} FillUp(jobs: int, items: nat, k: nat, mayYield: bool)
    requires 1 <= jobs && k <= jobs && k <= items
    ensures Reaches(Hosting(Initial(jobs, items), jobs), Filled(jobs, items, k), mayYield, 2 * k)
  {
    var h0 := Hosting(Initial(jobs, items), jobs);
    if k == 0 {
      assert h0.s.tasks == Filled(jobs, items, 0).s.tasks;
    } else {
      FillUp(jobs, items, k - 1, mayYield);
      var started := FillOne(jobs, items, k - 1);
      Onward(h0, Filled(jobs, items, k - 1), started, k - 1, Start, mayYield, 2 * (k - 1));
      Onward(h0, started, Filled(jobs, items, k), k - 1, Acquire, mayYield, 2 * k - 1);
    }
  }

  /** All jobs run; item 0 is in `first` and the next item in line in `last`. */
  function Scene(jobs: int, items: nat, first: Phase, last: Phase, permits: int, pool: int): Hosting
    requires 1 <= jobs < items
  {
    Hosting(State(permits, pool, Filled(jobs, items, jobs).s.tasks[0 := first][jobs := last]), pool)
  }

  lemma SceneCount(jobs: int, items: nat, first: Phase)
    requires 1 <= jobs < items && OnThread(first)
    ensures Count(Scene(jobs, items, first, Queued, 0, 0).s.tasks, OnThread) == jobs
  {
    var tasks := Filled(jobs, items, jobs).s.tasks;
    CountFilled(items, jobs);
    CountUpdate(tasks, 0, first, OnThread);
    assert tasks[0 := first][jobs := Queued] == tasks[0 := first];
  }

  lemma SceneSteps(jobs: int, items: nat)
    requires 1 <= jobs < items
    ensures Filled(jobs, items, jobs) == Scene(jobs, items, Holding, Queued, 0, jobs)
    ensures HostedStep(Scene(jobs, items, Holding, Queued, 0, jobs), Scene(jobs, items, Bumped, Queued, 0, jobs + 1),
                       0, BumpPool)
    ensures HostedStep(Scene(jobs, items, Bumped, Queued, 0, jobs + 1), Scene(jobs, items, Parked, Queued, 1, jobs + 1),
                       0, ReleaseForYield)
  {
    var tasks := Filled(jobs, items, jobs).s.tasks;
    assert tasks == tasks[0 := Holding][jobs := Queued];
    assert tasks[0 := Holding][jobs := Queued][0 := Bumped] == tasks[0 := Bumped][jobs := Queued];
    assert tasks[0 := Bumped][jobs := Queued][0 := Parked] == tasks[0 := Parked][jobs := Queued];
  }

  lemma SceneEnds(jobs: int, items: nat)
    requires 1 <= jobs < items
    ensures HostedStep(Scene(jobs, items, Parked, Queued, 1, jobs + 1), Scene(jobs, items, Parked, Waiting, 1, jobs + 1),
                       jobs, Start)
    ensures HostedStep(Scene(jobs, items, Parked, Waiting, 1, jobs + 1), Scene(jobs, items, Resumed, Waiting, 0, jobs + 1),
                       0, AcquireAgain)
    ensures Blocked(Scene(jobs, items, Resumed, Waiting, 0, jobs + 1).s, jobs)
  {
    var tasks := Filled(jobs, items, jobs).s.tasks;
    SceneCount(jobs, items, Parked);
    assert tasks[0 := Parked][jobs := Queued][jobs := Waiting] == tasks[0 := Parked][jobs := Waiting];
    assert tasks[0 := Parked][jobs := Waiting][0 := Resumed] == tasks[0 := Resumed][jobs := Waiting];
  }

  /** One worker yields, the item hosted meanwhile passes the throttle, the worker takes its
      permit back first. */
  lemma YieldBlocksAnother(jobs: int, items: nat) returns (h: Hosting)
    requires 1 <= jobs < items
    ensures Reachable(jobs, items, true, h) && Blocked(h.s, jobs)
  {
    var h0, full := Hosting(Initial(jobs, items), jobs), Filled(jobs, items, jobs);
    FillUp(jobs, items, jobs, true);
    SceneSteps(jobs, items);
    SceneEnds(jobs, items);
    h := Scene(jobs, items, Resumed, Waiting, 0, jobs + 1);
    YieldSteps(h0, full, Scene(jobs, items, Bumped, Queued, 0, jobs + 1), Scene(jobs, items, Parked, Queued, 1, jobs + 1),
               Scene(jobs, items, Parked, Waiting, 1, jobs + 1), h, jobs, 2 * jobs);
  }

  lemma YieldSteps(h0: Hosting, full: Hosting, bumped: Hosting, parked: Hosting, started: Hosting, h: Hosting,
                   t: int, steps: nat)
    requires Reaches(h0, full, true, steps)
    requires HostedStep(full, bumped, 0, BumpPool) && HostedStep(bumped, parked, 0, ReleaseForYield)
    requires HostedStep(parked, started, t, Start) && HostedStep(started, h, 0, AcquireAgain)
    ensures Reaches(h0, h, true, steps + 4)
  {
    TwoSteps(h0, full, bumped, parked, 0, BumpPool, 0, ReleaseForYield, steps);
    TwoSteps(h0, parked, started, h, t, Start, 0, AcquireAgain, steps + 2);
  }

  lemma TwoSteps(h0: Hosting, h: Hosting, mid: Hosting, h': Hosting, t: int, a: Action, t': int, a': Action, steps: nat)
    requires Reaches(h0, h, true, steps) && HostedStep(h, mid, t, a) && HostedStep(mid, h', t', a')
    ensures Reaches(h0, h', true, steps + 2)
  {
    Onward(h0, h, mid, t, a, true, steps);
    Onward(h0, mid, h', t', a', true, steps + 1);
  }

  /** A worker that passed the throttle can be kept waiting for a permit if and only if workers
      yield and there are more items than jobs. */
  lemma AcquireBlocksIff(jobs: int, items: nat, mayYield: bool)
    requires jobs >= 1
    ensures (exists h, t: nat :: Reachable(jobs, items, mayYield, h) && Blocked(h.s, t)) <==> mayYield && items > jobs
  {
    if mayYield && items > jobs {
      var h := YieldBlocksAnother(jobs, items);
    } else {
      forall h, t: nat | Reachable(jobs, items, mayYield, h) ensures !Blocked(h.s, t) {
        var steps :| Reaches(Hosting(Initial(jobs, items), jobs), h, mayYield, steps);
        ReachableKeeps(h, jobs, items, mayYield, steps);
        NobodyBlocked(h, jobs, items, mayYield, t);
      }
    }
  }

  // ---- Throttle ----

  function MaxReal(a: real, b: real): real { if a >= b then a else b }

  ghost predicate Apart(instants: seq<real>, gap: real) {
    forall i, j :: 0 <= i < j < |instants| ==> instants[j] - instants[i] >= gap
  }

  function LastOf(instants: seq<real>): real { if instants == [] then 0.0 else instants[|instants| - 1] }

  /** When successive calls of `wait` return, given the clock each of them reads. */
  function Releases(nows: seq<real>, delay: real): seq<real> {
    if nows == [] then []
    else
      var before, now := Releases(nows[..|nows| - 1], delay), nows[|nows| - 1];
      before + [if delay <= 0.0 then now else MaxReal(now, LastOf(before) + delay)]
  }

  class Throttle {
    const delay: real
    var last: real
    ghost var nows: seq<real>
    ghost var released: seq<real>

    ghost predicate Valid() reads this {
      && released == Releases(nows, delay)
      && (delay > 0.0 ==> last == LastOf(released) && Apart(released, delay))
    }

    constructor (delay: real)
      ensures Valid() && this.delay == delay && nows == released == [] && last == 0.0
    {
      this.delay, last, nows, released := delay, 0.0, [], [];
    }

    /** `now` is the monotonic clock read under the lock; the result is when the sleep ends. */
    method Wait(now: real) returns (release: real)
      requires Valid()
      modifies this
      ensures Valid() && nows == old(nows) + [now] && released == old(released) + [release]
      ensures delay <= 0.0 ==> release == now
      ensures delay > 0.0 ==> release == MaxReal(now, old(last) + delay) == last
    {
      ghost var before := nows;
      nows, release := nows + [now], now;
      assert nows[..|before|] == before;
      if delay > 0.0 {
        var wait := MaxReal(0.0, last + delay - now);
        last := MaxReal(last + delay, now);
        release := now + wait;
      }
      released := released + [release];
      ReleasesApart(nows, delay);
    }
  }

  lemma AppendApart(instants: seq<real>, x: real, gap: real)
    requires gap > 0.0 && Apart(instants, gap) && (instants != [] ==> x - LastOf(instants) >= gap)
    ensures Apart(instants + [x], gap)
  {
    var all := instants + [x];
    forall i, j | 0 <= i < j < |all| ensures all[j] - all[i] >= gap {
      if j == |instants| && i < |instants| - 1 {
        assert LastOf(instants) - instants[i] >= gap;
      }
    }
  }

  lemma {:induction false} ReleasesApart(nows: seq<real>, delay: real)
    ensures |Releases(nows, delay)| == |nows|
    ensures delay > 0.0 ==> Apart(Releases(nows, delay), delay)
    ensures delay <= 0.0 ==> Releases(nows, delay) == nows
  {
    if nows != [] {
      var before, now := Releases(nows[..|nows| - 1], delay), nows[|nows| - 1];
      ReleasesApart(nows[..|nows| - 1], delay);
      if delay > 0.0 {
        AppendApart(before, MaxReal(now, LastOf(before) + delay), delay);
      } else {
        assert nows == nows[..|nows| - 1] + [now];
      }
    }
  }

  /** No instant before its call's clock, none before `delay`, and `delay` apart. */
  ghost predicate Acceptable(times: seq<real>, nows: seq<real>, delay: real) {
    && |times| == |nows| && Apart(times, delay)
    && forall i :: 0 <= i < |times| ==> times[i] >= nows[i] && times[i] >= delay
  }

  lemma {:induction false} ReleasesAreAcceptable(nows: seq<real>, delay: real)
    requires delay > 0.0
    ensures Acceptable(Releases(nows, delay), nows, delay)
  {
    ReleasesApart(nows, delay);
    if nows != [] {
      var n := |nows| - 1;
      var before := Releases(nows[..n], delay);
      ReleasesAreAcceptable(nows[..n], delay);
      assert n > 0 ==> LastOf(before) == before[n - 1] >= delay;
    }
  }

  /** Nobody is held longer than the spacing needs: the releases are acceptable, and any other
      acceptable instants are as late or later, one by one. */
  lemma {:induction false} ReleasesAreEarliest(nows: seq<real>, delay: real, times: seq<real>)
    requires delay > 0.0 && Acceptable(times, nows, delay)
    ensures Acceptable(Releases(nows, delay), nows, delay)
    ensures forall i :: 0 <= i < |nows| ==> Releases(nows, delay)[i] <= times[i]
  {
    ReleasesAreAcceptable(nows, delay);
    if nows != [] {
      var n := |nows| - 1;
      ReleasesApart(nows[..n], delay);
      ReleasesAreEarliest(nows[..n], delay, times[..n]);
    }
  }

  /** time.monotonic() */
  ghost predicate Clock(nows: seq<real>) {
    forall i, j :: 0 <= i <= j < |nows| ==> 0.0 <= nows[i] <= nows[j]
  }

  /** When the items start: their release, plus what the sleep overran and what they waited for
      a permit, together at most `slack`. */
  ghost predicate Started(released: seq<real>, starts: seq<real>, slack: real) {
    |starts| == |released| && forall i :: 0 <= i < |starts| ==> released[i] <= starts[i] <= released[i] + slack
  }

  /** Started after the throttle released them, items are `gap` apart. */
  ghost predicate GapKept(nows: seq<real>, starts: seq<real>, delay: real, slack: real, gap: real) {
    Clock(nows) && Started(Releases(nows, delay), starts, slack) ==> Apart(starts, gap)
  }

  lemma StartsWithOverrun(nows: seq<real>, starts: seq<real>, delay: real, slack: real, gap: real)
    requires gap <= MaxReal(0.0, delay) - slack
    ensures GapKept(nows, starts, delay, slack, gap)
  {
    var released := Releases(nows, delay);
    ReleasesApart(nows, delay);
    if Clock(nows) && Started(released, starts, slack) {
      forall i, j | 0 <= i < j < |starts| ensures starts[j] - starts[i] >= gap {
        assert released[j] - released[i] >= MaxReal(0.0, delay);
      }
    }
  }

  lemma TwoReleases(now: real, delay: real)
    requires now >= delay
    ensures Releases([now, now], delay) == [now, now + MaxReal(0.0, delay)]
  {
    assert [now, now][..1] == [now] && [now][..0] == [];
    assert Releases([now], delay) == [now];
  }

  /** Two calls at one instant, the first item late by `slack`, the second on time. */
  lemma OverrunShrinksGap(delay: real, slack: real, gap: real)
    requires slack >= 0.0 && gap > MaxReal(0.0, delay) - slack
    ensures var now := MaxReal(0.0, delay);
      !GapKept([now, now], [now + slack, now + now], delay, slack, gap)
  {
    var now := MaxReal(0.0, delay);
    TwoReleases(now, delay);
    var starts := [now + slack, now + now];
    assert starts[1] - starts[0] < gap;
  }

  /** The spacing the throttle gives to starts, exactly: items that start at most `slack` after
      their release are `gap` apart in every run if and only if `gap` is `delay - slack` or less. */
  lemma StartGapIff(delay: real, slack: real, gap: real)
    requires slack >= 0.0
    ensures (forall nows, starts :: GapKept(nows, starts, delay, slack, gap)) <==> gap <= MaxReal(0.0, delay) - slack
  {
    if gap <= MaxReal(0.0, delay) - slack {
      forall nows, starts ensures GapKept(nows, starts, delay, slack, gap) {
        StartsWithOverrun(nows, starts, delay, slack, gap);
      }
    } else {
      OverrunShrinksGap(delay, slack, gap);
    }
  }

  // ---- _allocate_runner_names ----

  /** Indices in use: every page up to the first empty one. */
  function Used(pages: seq<seq<Option<nat>>>): set<nat> {
    if pages == [] || pages[0] == [] then {}
    else (set o | o in pages[0] && o.Some? :: o.value) + Used(pages[1..])
  }

  /** An index is in use if a page lists it before which, and including which, no page is empty. */
  lemma {:induction false} UsedIff(pages: seq<seq<Option<nat>>>, n: nat)
    ensures n in Used(pages) <==>
            exists p :: 0 <= p < |pages| && Some(n) in pages[p] && forall q :: 0 <= q <= p ==> pages[q] != []
  {
    if pages != [] && pages[0] != [] {
      UsedIff(pages[1..], n);
      if p :| 0 <= p < |pages[1..]| && Some(n) in pages[1..][p] && forall q :: 0 <= q <= p ==> pages[1..][q] != [] {
        assert Some(n) in pages[p + 1];
        forall q | 0 <= q <= p + 1 ensures pages[q] != [] {
          assert q > 0 ==> pages[q] == pages[1..][q - 1];
        }
      }
      if p :| 0 <= p < |pages| && Some(n) in pages[p] && forall q :: 0 <= q <= p ==> pages[q] != [] {
        if p > 0 {
          assert Some(n) in pages[1..][p - 1];
          assert forall q :: 0 <= q <= p - 1 ==> pages[1..][q] == pages[q + 1] != [];
        }
      }
    }
  }

  /** The `count` smallest unused indices, in order: `riscv-runner-<i>`. */
  ghost predicate SmallestFree(names: seq<nat>, used: set<nat>, next: nat) {
    && (forall i, j :: 0 <= i < j < |names| ==> names[i] < names[j])
    && (forall n :: n in names ==> n < next && n !in used)
    && (forall n: nat :: n < next ==> n in used || n in names)
  }

  lemma SmallestFreeStep(names: seq<nat>, used: set<nat>, i: nat)
    requires SmallestFree(names, used, i)
    ensures i in used ==> SmallestFree(names, used, i + 1)
    ensures i !in used ==> SmallestFree(names + [i], used, i + 1)
  {
    var more := names + [i];
    forall n: nat | n < i + 1 ensures n in used || n in more {
      assert n == i || n in used || n in names;
      assert more[|names|] == i;
    }
    forall k | 0 <= k < |names| ensures names[k] < i {
      assert names[k] in names;
    }
  }

  method CollectUsed(pages: seq<seq<Option<nat>>>) returns (used: set<nat>)
    ensures used == Used(pages)
  {
    used := {};
    var page := 0;
    while page < |pages| && pages[page] != []
      invariant 0 <= page <= |pages|
      invariant Used(pages) == used + Used(pages[page..])
    {
      var k := 0;
      ghost var before := used;
      while k < |pages[page]|
        invariant 0 <= k <= |pages[page]|
        invariant used == before + set o | o in pages[page][..k] && o.Some? :: o.value
      {
        assert pages[page][..k + 1] == pages[page][..k] + [pages[page][k]];
        if pages[page][k].Some? {
          used := used + {pages[page][k].value};
        }
        k := k + 1;
      }
      assert pages[page][..k] == pages[page];
      assert pages[page..][1..] == pages[page + 1..];
      page := page + 1;
    }
  }

  method AllocateRunnerNames(pages: seq<seq<Option<nat>>>, count: int) returns (names: seq<nat>)
    ensures |names| == Max(0, count)
    ensures exists next: nat :: SmallestFree(names, Used(pages), next)
  {
    var used := CollectUsed(pages);
    ghost var taken, ahead := used, used;
    names := [];
    var i: nat := 0;
    while |names| < count
      invariant |names| <= Max(0, count)
      invariant forall n :: n in used <==> n in taken || n in names
      invariant forall u :: u in taken && u >= i ==> u in ahead
      invariant SmallestFree(names, taken, i)
      decreases count - |names|, |ahead|
    {
      SmallestFreeStep(names, taken, i);
      if i !in used {
        names := names + [i];
        used := used + {i};
      } else {
        assert i in taken;
        ahead := ahead - {i};
      }
      i := i + 1;
    }
  }

  lemma SmallestFreeInit(names: seq<nat>, used: set<nat>, next: nat)
    requires SmallestFree(names, used, next) && names != []
    ensures SmallestFree(names[..|names| - 1], used, names[|names| - 1])
  {
    var last := |names| - 1;
    forall n: nat | n < names[last] ensures n in used || n in names[..last] {
      if n !in used {
        assert names[last] in names;
        assert n in names;
        var k :| 0 <= k < |names| && names[k] == n;
        assert names[..last][k] == n;
      }
    }
  }

  /** Two answers of the same length to the same request are the same names. */
  lemma {:induction false} SmallestFreeUnique(a: seq<nat>, b: seq<nat>, used: set<nat>, na: nat, nb: nat)
    requires SmallestFree(a, used, na) && SmallestFree(b, used, nb) && |a| == |b|
    ensures a == b
  {
    if a != [] {
      var n := |a| - 1;
      SmallestFreeInit(a, used, na);
      SmallestFreeInit(b, used, nb);
      SmallestFreeUnique(a[..n], b[..n], used, a[n], b[n]);
      assert a[n] in a && b[n] in b;
      assert a == a[..n] + [a[n]] && b == b[..n] + [b[n]];
    }
  }
}
