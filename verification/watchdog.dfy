/** The kubelet watchdog script (the containerd one is the same machine).

    Two files survive between runs: a failure counter and a restart history that
    every run past the threshold prunes to the last hour.  The reference machine
    below never prunes and knows no hourly limit; the script is shown to take
    exactly its decisions. */
module Watchdog {

  const THRESHOLD := 3
  const MIN_INTERVAL := 900
  const HOUR := 3600
  const HOUR_LIMIT := 4

  /** One run of the script: the outcome of the health probe and `date +%s`. */
  datatype Probe = Probe(healthy: bool, now: int)

  /** Reference state: probes failed since the last success or restart, and every restart ever. */
  datatype Reference = Reference(streak: nat, restarts: seq<int>)

  predicate Due(r: Reference, p: Probe) {
    && !p.healthy
    && r.streak + 1 >= THRESHOLD
    && (r.restarts == [] || p.now - r.restarts[|r.restarts| - 1] >= MIN_INTERVAL)
  }

  function Next(r: Reference, p: Probe): Reference {
    if Due(r, p) then Reference(0, r.restarts + [p.now])
    else r.(streak := if p.healthy then 0 else r.streak + 1)
  }

  function Run(probes: seq<Probe>): Reference {
    if probes == [] then Reference(0, [])
    else Next(Run(probes[..|probes| - 1]), probes[|probes| - 1])
  }

  /** The script restarted on probe `k` of the sequence. */
  predicate RestartedAt(probes: seq<Probe>, k: nat)
    requires k < |probes|
  {
    Due(Run(probes[..k]), probes[k])
  }

  ghost predicate ClockMonotone(probes: seq<Probe>) {
    forall i, j :: 0 <= i <= j < |probes| ==> probes[i].now <= probes[j].now
  }

  ghost predicate Spaced(times: seq<int>) {
    forall i, j :: 0 <= i < j < |times| ==> times[j] - times[i] >= MIN_INTERVAL
  }

  /** How many of `times` fall in the half-open interval [lo, hi). */
  function InWindow(times: seq<int>, lo: int, hi: int): nat {
    if times == [] then 0
    else
      var last := times[|times| - 1];
      InWindow(times[..|times| - 1], lo, hi) + if lo <= last < hi then 1 else 0
  }

  // ---- spacing and windows ----

  lemma {:induction false} RestartsSpaced(probes: seq<Probe>)
    requires ClockMonotone(probes)
    ensures Spaced(Run(probes).restarts)
    ensures forall t :: t in Run(probes).restarts ==> probes != [] && t <= probes[|probes| - 1].now
  {
    if probes != [] {
      var before := probes[..|probes| - 1];
      RestartsSpaced(before);
      var r := Run(before);
      if Due(r, probes[|probes| - 1]) && r.restarts != [] {
        var last := r.restarts[|r.restarts| - 1];
        assert forall i :: 0 <= i < |r.restarts| ==> r.restarts[i] <= last;
      }
    }
  }

  lemma {:induction false} WindowShrinks(times: seq<int>, lo: int, hi: int, hi': int)
    requires hi' <= hi
    requires forall t :: t in times ==> t < hi'
    ensures InWindow(times, lo, hi) == InWindow(times, lo, hi')
  {
    if times != [] {
      var before := times[..|times| - 1];
      assert times[|times| - 1] in times && forall t :: t in before ==> t in times;
      WindowShrinks(before, lo, hi, hi');
    }
  }

  /** n spaced instants need more than (n - 1) intervals of room. */
  lemma {:induction false} WindowRoom(times: seq<int>, lo: int, hi: int)
    requires Spaced(times)
    ensures InWindow(times, lo, hi) > 0 ==> (InWindow(times, lo, hi) - 1) * MIN_INTERVAL < hi - lo
  {
    if times != [] {
      var before, last := times[..|times| - 1], times[|times| - 1];
      WindowRoom(before, lo, hi);
      if lo <= last < hi {
        var hi' := last - MIN_INTERVAL + 1;
        assert forall i :: 0 <= i < |before| ==> before[i] == times[i] < hi';
        WindowShrinks(before, lo, hi, hi');
        WindowRoom(before, lo, hi');
      }
    }
  }

  /** Any half-open hour holds at most HOUR_LIMIT restarts. */
  lemma {:induction false} HourlyBound(probes: seq<Probe>, start: int)
    requires ClockMonotone(probes)
    ensures InWindow(Run(probes).restarts, start, start + HOUR) <= HOUR_LIMIT
  {
    RestartsSpaced(probes);
    WindowRoom(Run(probes).restarts, start, start + HOUR);
  }

  // ---- three failures before every restart ----

  lemma {:induction false} StreakCountsFailures(probes: seq<Probe>)
    ensures var s := Run(probes).streak;
      && s <= |probes|
      && forall k :: |probes| - s <= k < |probes| ==> !probes[k].healthy && !RestartedAt(probes, k)
  {
    if probes != [] {
      var n := |probes| - 1;
      var before := probes[..n];
      StreakCountsFailures(before);
      forall k | |probes| - Run(probes).streak <= k < |probes|
        ensures !probes[k].healthy && !RestartedAt(probes, k)
      {
        if k < n {
          assert before[..k] == probes[..k];
          assert !RestartedAt(before, k);
        }
      }
    }
  }

  lemma {:induction false} RestartNeedsThreeFailures(probes: seq<Probe>, k: nat)
    requires k < |probes| && RestartedAt(probes, k)
    ensures k >= 2 && !probes[k].healthy && !probes[k - 1].healthy && !probes[k - 2].healthy
    ensures !RestartedAt(probes, k - 1) && !RestartedAt(probes, k - 2)
  {
    var before := probes[..k];
    StreakCountsFailures(before);
    assert before[..k - 1] == probes[..k - 1] && before[..k - 2] == probes[..k - 2];
    assert !RestartedAt(before, k - 1) && !RestartedAt(before, k - 2);
  }

  // ---- and a restart after them ----

  lemma {:induction false} StreakReaches(probes: seq<Probe>, n: nat)
    requires n <= |probes| && forall k :: |probes| - n <= k < |probes| ==> !probes[k].healthy && !RestartedAt(probes, k)
    ensures Run(probes).streak >= n
  {
    if n > 0 {
      var before := probes[..|probes| - 1];
      forall k | |before| - (n - 1) <= k < |before| ensures !before[k].healthy && !RestartedAt(before, k) {
        assert before[..k] == probes[..k];
        assert !RestartedAt(probes, k);
      }
      StreakReaches(before, n - 1);
      assert !RestartedAt(probes, |probes| - 1);
    }
  }

  lemma SameInPrefix(probes: seq<Probe>, n: nat, k: nat)
    requires k < n <= |probes|
    ensures RestartedAt(probes[..n], k) <==> RestartedAt(probes, k)
  {
    assert probes[..n][..k] == probes[..k];
  }

  lemma {:induction false} TimeOfRestart(probes: seq<Probe>, k: nat)
    requires k < |probes| && RestartedAt(probes, k)
    ensures probes[k].now in Run(probes).restarts
  {
    var n := |probes| - 1;
    if k < n {
      SameInPrefix(probes, n, k);
      TimeOfRestart(probes[..n], k);
    }
  }

  lemma {:induction false} RestartOfTime(probes: seq<Probe>, t: int) returns (k: nat)
    requires t in Run(probes).restarts
    ensures k < |probes| && RestartedAt(probes, k) && probes[k].now == t
  {
    var n := |probes| - 1;
    if t in Run(probes[..n]).restarts {
      k := RestartOfTime(probes[..n], t);
      SameInPrefix(probes, n, k);
    } else {
      k := n;
    }
  }

  /** No restart of the earlier runs lies less than 900 seconds back. */
  ghost predicate Rested(probes: seq<Probe>, k: nat)
    requires k < |probes|
  {
    forall i :: 0 <= i < k && RestartedAt(probes, i) ==> probes[k].now - probes[i].now >= 900
  }

  lemma RestedFromTimes(probes: seq<Probe>, k: nat)
    requires k < |probes|
    ensures Rested(probes, k) <==> forall t :: t in Run(probes[..k]).restarts ==> probes[k].now - t >= 900
  {
    var before := probes[..k];
    forall i | 0 <= i < k && RestartedAt(probes, i) ensures probes[i].now in Run(before).restarts {
      SameInPrefix(probes, k, i);
      TimeOfRestart(before, i);
    }
    if Rested(probes, k) {
      forall t | t in Run(before).restarts ensures probes[k].now - t >= 900 {
        var i := RestartOfTime(before, t);
        SameInPrefix(probes, k, i);
      }
    }
  }

  lemma RestedIs(probes: seq<Probe>, k: nat)
    requires ClockMonotone(probes) && k < |probes|
    ensures Rested(probes, k) <==> SpacingAllows(Run(probes[..k]).restarts, probes[k].now)
  {
    var rs := Run(probes[..k]).restarts;
    RestedFromTimes(probes, k);
    RestartsSpaced(probes[..k]);
    forall t | t in rs ensures t <= rs[|rs| - 1] {
      var i :| 0 <= i < |rs| && rs[i] == t;
      LastIsLatest(rs, i);
    }
    if rs != [] {
      assert rs[|rs| - 1] in rs;
    }
  }

  /** When the script restarts, in terms of the probes and its own earlier restarts: the third
      failure since the last success or restart, or a later one, once 900 seconds have passed
      since every restart so far. */
  lemma RestartIff(probes: seq<Probe>, k: nat)
    requires ClockMonotone(probes) && k < |probes|
    ensures RestartedAt(probes, k) <==>
            && k >= 2 && !probes[k].healthy && !probes[k - 1].healthy && !probes[k - 2].healthy
            && !RestartedAt(probes, k - 1) && !RestartedAt(probes, k - 2)
            && Rested(probes, k)
  {
    RestedIs(probes, k);
    if RestartedAt(probes, k) {
      RestartNeedsThreeFailures(probes, k);
    } else if k >= 2 && !probes[k - 1].healthy && !probes[k - 2].healthy
              && !RestartedAt(probes, k - 1) && !RestartedAt(probes, k - 2) {
      var before := probes[..k];
      assert before[..k - 1] == probes[..k - 1] && before[..k - 2] == probes[..k - 2];
      assert !RestartedAt(before, k - 1) && !RestartedAt(before, k - 2);
      StreakReaches(before, 2);
    }
  }

  // ---- the script ----

  lemma RunOneMore(probes: seq<Probe>, p: Probe)
    requires ClockMonotone(probes)
    requires probes != [] ==> probes[|probes| - 1].now <= p.now
    ensures ClockMonotone(probes + [p])
    ensures Run(probes + [p]) == Next(Run(probes), p)
    ensures RestartedAt(probes + [p], |probes|) <==> Due(Run(probes), p)
  {
    var all := probes + [p];
    assert all[..|probes|] == probes;
    forall i, j | 0 <= i <= j < |all| ensures all[i].now <= all[j].now {
      if j == |probes| && i < j {
        assert probes[i].now <= probes[|probes| - 1].now;
      } else {
        assert i < |probes| ==> all[i] == probes[i] && (j < |probes| ==> all[j] == probes[j]);
      }
    }
  }

  /** `awk '$1 > now-3600'` */
  function Recent(history: seq<int>, now: int): seq<int> {
    if history == [] then []
    else (if history[0] > now - HOUR then [history[0]] else []) + Recent(history[1..], now)
  }

  lemma {:induction false} RecentKeepsAll(history: seq<int>, now: int)
    requires forall i :: 0 <= i < |history| ==> history[i] > now - HOUR
    ensures Recent(history, now) == history
  {
    if history != [] {
      RecentKeepsAll(history[1..], now);
    }
  }

  /** On a spaced history, pruning drops a prefix and nothing else. */
  lemma {:induction false} RecentIsSuffix(history: seq<int>, now: int) returns (k: nat)
    requires Spaced(history)
    ensures k <= |history| && Recent(history, now) == history[k..]
    ensures forall i :: 0 <= i < k ==> history[i] <= now - HOUR
    ensures forall i :: k <= i < |history| ==> history[i] > now - HOUR
  {
    if history == [] {
      k := 0;
    } else if history[0] > now - HOUR {
      forall i | 0 <= i < |history| ensures history[i] > now - HOUR {
        assert i > 0 ==> history[i] - history[0] >= MIN_INTERVAL;
      }
      RecentKeepsAll(history, now);
      k := 0;
    } else {
      var tail := history[1..];
      SuffixSpaced(history, 1);
      var k' := RecentIsSuffix(tail, now);
      k := k' + 1;
      assert Recent(history, now) == [] + Recent(tail, now) == history[k..];
      forall i | 0 <= i < |history|
        ensures if i < k then history[i] <= now - HOUR else history[i] > now - HOUR
      {
        assert i > 0 ==> history[i] == tail[i - 1];
      }
    }
  }

  lemma {:induction false} AllInWindow(times: seq<int>, lo: int, hi: int)
    requires forall t :: t in times ==> lo <= t < hi
    ensures InWindow(times, lo, hi) == |times|
  {
    if times != [] {
      var before := times[..|times| - 1];
      assert times[|times| - 1] in times && forall t :: t in before ==> t in times;
      AllInWindow(before, lo, hi);
    }
  }

  /** What pruning may have lost: a prefix of the restarts, all an hour old. */
  ghost predicate Pruned(restarts: seq<int>, dropped: nat, history: seq<int>, now: int) {
    && dropped <= |restarts|
    && history == restarts[dropped..]
    && forall i :: 0 <= i < dropped ==> restarts[i] <= now - HOUR
  }

  lemma PrunedLater(restarts: seq<int>, dropped: nat, history: seq<int>, now: int, later: int)
    requires Pruned(restarts, dropped, history, now) && now <= later
    ensures Pruned(restarts, dropped, history, later)
  {
  }

  lemma PrunedAppends(restarts: seq<int>, dropped: nat, history: seq<int>, now: int)
    requires Pruned(restarts, dropped, history, now)
    ensures Pruned(restarts + [now], dropped, history + [now], now)
  {
  }

  predicate SpacingAllows(times: seq<int>, now: int) {
    times == [] || now - times[|times| - 1] >= MIN_INTERVAL
  }

  lemma SuffixSpaced(times: seq<int>, k: nat)
    requires Spaced(times) && k <= |times|
    ensures Spaced(times[k..])
  {
  }

  /** Pruning again keeps the relation and never changes the spacing test. */
  lemma PruningKeepsDecision(restarts: seq<int>, dropped: nat, history: seq<int>, now: int) returns (dropped': nat)
    requires Spaced(restarts) && Pruned(restarts, dropped, history, now)
    ensures Pruned(restarts, dropped', Recent(history, now), now)
    ensures forall i :: dropped' <= i < |restarts| ==> restarts[i] > now - HOUR
    ensures SpacingAllows(Recent(history, now), now) <==> SpacingAllows(restarts, now)
  {
    SuffixSpaced(restarts, dropped);
    var k := RecentIsSuffix(history, now);
    dropped' := dropped + k;
    assert history[k..] == restarts[dropped'..];
    forall i | 0 <= i < |restarts| && i >= dropped
      ensures i < dropped' ==> restarts[i] <= now - HOUR
      ensures i >= dropped' ==> restarts[i] > now - HOUR
    {
      assert restarts[i] == history[i - dropped];
    }
  }

  /** Once the last restart is MIN_INTERVAL old, the pruned history is below the hourly limit. */
  lemma HourLimitNeverReached(restarts: seq<int>, dropped: nat, history: seq<int>, now: int)
    requires Spaced(restarts) && Pruned(restarts, dropped, history, now)
    requires SpacingAllows(restarts, now)
    ensures |Recent(history, now)| < HOUR_LIMIT
  {
    var k := PruningKeepsDecision(restarts, dropped, history, now);
    var recent := restarts[k..];
    var lo, hi := now - HOUR + 1, now - MIN_INTERVAL + 1;
    forall i | 0 <= i < |recent| ensures lo <= recent[i] < hi {
      assert recent[i] == restarts[k + i];
      LastIsLatest(restarts, k + i);
    }
    AllInWindow(recent, lo, hi);
    SuffixSpaced(restarts, k);
    WindowRoom(recent, lo, hi);
  }

  lemma LastIsLatest(times: seq<int>, i: nat)
    requires Spaced(times) && i < |times|
    ensures times[i] <= times[|times| - 1]
  {
  }

  /** The two files the script rewrites; `probes` records its runs so far. */
  class Script {
    var fails: nat
    var history: seq<int>
    ghost var probes: seq<Probe>
    ghost var dropped: nat

    ghost predicate Valid() reads this {
      && ClockMonotone(probes)
      && fails == Run(probes).streak
      && (if probes == [] then history == [] && dropped == 0
          else Pruned(Run(probes).restarts, dropped, history, probes[|probes| - 1].now))
    }

    constructor ()
      ensures Valid() && probes == [] && fails == 0 && history == []
    {
      fails, history, probes, dropped := 0, [], [], 0;
    }

    /** Lines 24-37: prune the history, then apply the two rate limits to what is left. */
    method RateLimited(now: int, ghost restarts: seq<int>) returns (limited: bool)
      requires Spaced(restarts) && Pruned(restarts, dropped, history, now)
      modifies `history, `dropped
      ensures limited <==> !SpacingAllows(restarts, now)
      ensures Pruned(restarts, dropped, history, now)
    {
      ghost var kept := history;
      ghost var dropped' := PruningKeepsDecision(restarts, dropped, kept, now);
      history := Recent(history, now);
      var count := |history|;
      if history != [] && now - history[count - 1] < MIN_INTERVAL {
        limited := true;
      } else {
        limited := count >= HOUR_LIMIT;
        HourLimitNeverReached(restarts, dropped, kept, now);
      }
      dropped := dropped';
    }

    /** Exit status 1 asks for a restart. */
    method Check(p: Probe) returns (exit: int)
      requires Valid()
      requires probes != [] ==> probes[|probes| - 1].now <= p.now
      modifies this
      ensures Valid() && probes == old(probes) + [p]
      ensures exit == if RestartedAt(probes, |probes| - 1) then 1 else 0
    {
      ghost var r := Run(probes);
      RunOneMore(probes, p);
      RestartsSpaced(probes);
      assert Pruned(r.restarts, dropped, history, p.now) by {
        if probes != [] {
          PrunedLater(r.restarts, dropped, history, probes[|probes| - 1].now, p.now);
        }
      }
      probes := probes + [p];
      exit := 0;
      if p.healthy {
        fails := 0;
        return;
      }
      fails := fails + 1;
      if fails < THRESHOLD {
        return;
      }
      var limited := RateLimited(p.now, r.restarts);
      if !limited {
        PrunedAppends(r.restarts, dropped, history, p.now);
        history := history + [p.now];
        fails := 0;
        exit := 1;
      }
    }
  }
}
