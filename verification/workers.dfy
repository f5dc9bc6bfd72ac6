/** The workers table (internal/db.go): every UPDATE with its WHERE and COALESCE. */
module Workers {
  import opened Base

  datatype Reason =
    | PodAllocationFailure | PodFailed | PodStuckPending | RunnerNeverRegistered
    | RunnerIdle | NodeUnreachable | RateLimited

  datatype Worker = Worker(
    entity: Id, kind: EntityType, entityName: string, installation: Id, repo: Option<string>,
    labels: seq<string>, selector: NodeSelector, image: string,
    node: Option<string>, status: Status, failure: Option<Reason>,
    runningAt: Option<int>, completedAt: Option<int>)
  {
    predicate Active() { status.Active() }
  }

  type Rows = map<string, Worker>

  // ---- one row ----

  /** One UPDATE; `now` is the database clock. */
  datatype Write =
    | MarkRunning(node: string, at: Option<int>, now: int)
    | MarkCompleted(node: string, at: Option<int>, now: int)
    | MarkFailed(node: string, reason: Reason, at: Option<int>, now: int)
    | MarkOrphaned(now: int)

  function Apply(w: Worker, u: Write): Worker {
    match u
    case MarkRunning(node, at, now) =>
      if w.status.Pending? then
        w.(status := Running, node := Some(node), runningAt := Some(Or(Coalesce(w.runningAt, at), now)))
      else w
    case MarkCompleted(node, at, now) =>
      if w.Active() then
        w.(status := Completed, node := Coalesce(w.node, Some(node)),
           completedAt := Some(Or(Coalesce(w.completedAt, at), now)))
      else w
    case MarkFailed(node, reason, at, now) =>
      if w.Active() then
        w.(status := Failed, node := Coalesce(w.node, Some(node)), failure := Some(reason),
           completedAt := Some(Or(at, now)))
      else w
    case MarkOrphaned(now) =>
      if w.Active() then w.(status := Completed, completedAt := Some(Or(w.completedAt, now))) else w
  }

  function ApplyAll(w: Worker, us: seq<Write>): Worker
    decreases |us|
  {
    if us == [] then w else ApplyAll(Apply(w, us[0]), us[1..])
  }

  /** completed_at exactly when terminal, failure_info exactly when failed, running_at when running. */
  predicate RowOk(w: Worker) {
    && (w.completedAt.Some? <==> !w.Active())
    && (w.failure.Some? <==> w.status.Failed?)
    && (w.status.Running? ==> w.runningAt.Some?)
  }

  /** What any number of updates may do to a row. */
  predicate Evolves(w: Worker, w': Worker) {
    && (!w.Active() ==> w' == w)
    && (w.status.Running? ==> !w'.status.Pending?)
    && (w.runningAt.Some? ==> w'.runningAt == w.runningAt)
    && (w.completedAt.Some? ==> w'.completedAt == w.completedAt)
    && w' == w.(node := w'.node, status := w'.status, failure := w'.failure,
                runningAt := w'.runningAt, completedAt := w'.completedAt)
  }

  lemma {:induction false} RowLifecycle(w: Worker, us: seq<Write>)
    requires RowOk(w)
    ensures RowOk(ApplyAll(w, us)) && Evolves(w, ApplyAll(w, us))
    decreases |us|
  {
    if us != [] {
      RowLifecycle(Apply(w, us[0]), us[1..]);
    }
  }

  // ---- the table ----

  function Update(rows: Rows, name: string, u: Write): Rows {
    if name in rows then rows[name := Apply(rows[name], u)] else rows
  }

  /** The WHERE clause of GetWorkersForReconcile. */
  predicate Selected(w: Worker, now: int, lookback: nat) {
    w.Active() || (w.completedAt.Some? && w.completedAt.value > now - lookback)
  }

  function Snapshot(rows: Rows, now: int, lookback: nat): Rows {
    map n | n in rows && Selected(rows[n], now, lookback) :: rows[n]
  }

  /** What a caller may conclude from a row's absence: no such row, or one that completed no
      later than the lookback allows.  So no active row is ever missing, for any lookback. */
  lemma AbsentMeansLongDone(rows: Rows, now: int, lookback: nat, name: string)
    requires forall n :: n in rows ==> RowOk(rows[n])
    ensures name !in Snapshot(rows, now, lookback) <==>
            name !in rows || (!rows[name].Active() && rows[name].completedAt.Some? && rows[name].completedAt.value <= now - lookback)
    ensures forall e :: ActiveOf(Snapshot(rows, now, lookback), e) == ActiveOf(rows, e)
    ensures forall e, k :: ActiveInPool(Snapshot(rows, now, lookback), e, k) == ActiveInPool(rows, e, k)
  {
  }

  function ActiveOf(rows: Rows, entity: Id): set<string> {
    set n | n in rows && rows[n].entity == entity && rows[n].Active()
  }

  function ActiveInPool(rows: Rows, entity: Id, key: seq<string>): set<string> {
    set n | n in rows && rows[n].entity == entity && rows[n].labels == key && rows[n].Active()
  }

  class WorkerTable {
    var rows: Rows

    constructor ()
      ensures rows == map[]
    {
      rows := map[];
    }

    /** The INSERT doubles as the is-this-name-free test. */
    method AddWorker(name: string, w: Worker) returns (added: bool)
      requires w.status.Pending?
      modifies this
      ensures added == (name !in old(rows))
      ensures rows == if added then old(rows)[name := w] else old(rows)
    {
      added := name !in rows;
      if added {
        rows := rows[name := w];
      }
    }

    method MarkWorkerRunning(name: string, node: string, at: Option<int>, now: int)
      modifies this
      ensures rows == Update(old(rows), name, MarkRunning(node, at, now))
    {
      if name in rows && rows[name].status.Pending? {
        var w := rows[name];
        rows := rows[name := w.(status := Running, node := Some(node),
                                runningAt := Some(Or(Coalesce(w.runningAt, at), now)))];
      }
    }

    method MarkWorkerCompleted(name: string, node: string, at: Option<int>, now: int)
      modifies this
      ensures rows == Update(old(rows), name, MarkCompleted(node, at, now))
    {
      if name in rows && (rows[name].status.Pending? || rows[name].status.Running?) {
        var w := rows[name];
        rows := rows[name := w.(status := Completed, node := Coalesce(w.node, Some(node)),
                                completedAt := Some(Or(Coalesce(w.completedAt, at), now)))];
      }
    }

    method MarkWorkerFailed(name: string, node: string, reason: Reason, at: Option<int>, now: int)
      modifies this
      ensures rows == Update(old(rows), name, MarkFailed(node, reason, at, now))
    {
      if name in rows && (rows[name].status.Pending? || rows[name].status.Running?) {
        var w := rows[name];
        rows := rows[name := w.(status := Failed, node := Coalesce(w.node, Some(node)), failure := Some(reason),
                                completedAt := Some(Or(at, now)))];
      }
    }

    method MarkWorkerOrphaned(name: string, now: int)
      modifies this
      ensures rows == Update(old(rows), name, MarkOrphaned(now))
    {
      if name in rows && (rows[name].status.Pending? || rows[name].status.Running?) {
        var w := rows[name];
        rows := rows[name := w.(status := Completed, completedAt := Some(Or(w.completedAt, now)))];
      }
    }

    /** Each row returned is the stored one; it was returned for being active, or terminal
        with a completion time inside the lookback. */
    method GetWorkersForReconcile(now: int, lookback: nat) returns (ws: Rows)
      ensures forall n :: n in ws <==>
        n in rows && (rows[n].Active() || (rows[n].completedAt.Some? && rows[n].completedAt.value > now - lookback))
      ensures forall n :: n in ws ==> ws[n] == rows[n]
    {
      ws := map n | n in rows && Selected(rows[n], now, lookback) :: rows[n];
    }

    /** GetTotalWorkersForEntity */
    function TotalForEntity(entity: Id): nat reads this { |ActiveOf(rows, entity)| }
  }

  // ---- counting ----

  /** A fresh active row adds one to its own entity ... */
  lemma AddCounts(rows: Rows, name: string, w: Worker, e: Id)
    requires name !in rows && w.Active()
    ensures |ActiveOf(rows[name := w], e)| == |ActiveOf(rows, e)| + if e == w.entity then 1 else 0
  {
    if e == w.entity {
      assert ActiveOf(rows[name := w], e) == ActiveOf(rows, e) + {name};
    } else {
      assert ActiveOf(rows[name := w], e) == ActiveOf(rows, e);
    }
  }

  /** ... and to its own pool, and to no other. */
  lemma AddPoolCounts(rows: Rows, name: string, w: Worker, e: Id, k: seq<string>)
    requires name !in rows && w.Active()
    ensures |ActiveInPool(rows[name := w], e, k)| ==
            |ActiveInPool(rows, e, k)| + if e == w.entity && k == w.labels then 1 else 0
  {
    if e == w.entity && k == w.labels {
      assert ActiveInPool(rows[name := w], e, k) == ActiveInPool(rows, e, k) + {name};
    } else {
      assert ActiveInPool(rows[name := w], e, k) == ActiveInPool(rows, e, k);
    }
  }

  /** `rows'` holds no active row that `rows` does not. */
  ghost predicate OnlyRetires(rows: Rows, rows': Rows) {
    forall n :: n in rows' && rows'[n].Active() ==>
      n in rows && rows[n].Active() && rows'[n].entity == rows[n].entity && rows'[n].labels == rows[n].labels
  }

  lemma RetiringCounts(rows: Rows, rows': Rows)
    requires OnlyRetires(rows, rows')
    ensures forall e :: |ActiveOf(rows', e)| <= |ActiveOf(rows, e)|
    ensures forall e, k :: |ActiveInPool(rows', e, k)| <= |ActiveInPool(rows, e, k)|
  {
    forall e ensures |ActiveOf(rows', e)| <= |ActiveOf(rows, e)| {
      SubsetCount(ActiveOf(rows', e), ActiveOf(rows, e));
    }
    forall e, k ensures |ActiveInPool(rows', e, k)| <= |ActiveInPool(rows, e, k)| {
      SubsetCount(ActiveInPool(rows', e, k), ActiveInPool(rows, e, k));
    }
  }
}
