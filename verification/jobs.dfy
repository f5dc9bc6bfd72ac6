/** The jobs table (internal/db.go) and the scheduler's job sync (sync_jobs.go). */
module Jobs {
  import opened Base

  const STUCK_QUEUED_MIN_AGE := 600

  datatype Job = Job(
    id: Id, status: Status, failure: Option<string>,
    entity: Id, kind: Option<EntityType>, entityName: string,
    repo: string, installation: Id, labels: seq<string>,
    selector: NodeSelector, image: string, pod: Option<string>, createdAt: int,
    conclusion: Option<string>, startedAt: Option<int>, completedAt: Option<int>)

  /** The GitHub facts a job write carries. `runner` is text, so "" is not null. */
  datatype GHJob = GHJob(
    id: Id, status: string, conclusion: Option<string>, runner: string, runId: int,
    startedAt: Option<int>, completedAt: Option<int>)

  // ---- one row ----

  /** What can reach a row once AddJob has inserted it. */
  datatype Write = Queued | InProgress(gh: GHJob) | Finished(gh: GHJob) | Abandoned(info: string) {
    predicate Terminal() { Finished? || Abandoned? }
  }

  function Apply(j: Job, w: Write): Job {
    match w
    case Queued => j
    case InProgress(gh) =>
      if j.status.Pending? then
        j.(status := Running,
           pod := Coalesce(j.pod, Some(gh.runner)),
           startedAt := Coalesce(j.startedAt, gh.startedAt))
      else j
    case Finished(gh) =>
      if j.status.Active() then
        j.(status := Completed,
           pod := Coalesce(j.pod, Some(gh.runner)),
           startedAt := Coalesce(j.startedAt, gh.startedAt),
           completedAt := Coalesce(j.completedAt, gh.completedAt),
           conclusion := Coalesce(j.conclusion, gh.conclusion))
      else j
    case Abandoned(info) =>
      if j.status.Active() then j.(status := Failed, failure := Some(info)) else j
  }

  function ApplyAll(j: Job, ws: seq<Write>): Job
    decreases |ws|
  {
    if ws == [] then j else ApplyAll(Apply(j, ws[0]), ws[1..])
  }

  /** A row as AddJob leaves it. */
  predicate Fresh(j: Job) {
    j.status.Pending? && j.pod.None? && j.startedAt.None? && j.completedAt.None? && j.conclusion.None? && j.failure.None?
  }

  /** Webhook deliveries and reconciler writes about one job: `running` are the facts of
      every in_progress write, `finished` those of every completed write. */
  ghost predicate Deliveries(ws: seq<Write>, running: GHJob, finished: GHJob) {
    forall w :: w in ws ==> w == Queued || w == InProgress(running) || w == Finished(finished)
  }

  ghost predicate SawFinished(ws: seq<Write>) { exists w :: w in ws && w.Finished? }
  ghost predicate SawRunning(ws: seq<Write>) { exists w :: w in ws && w.InProgress? }

  /** The facts agree where both kinds of write set a column. */
  predicate Agree(running: GHJob, finished: GHJob) {
    running.runner == finished.runner && (running.startedAt.None? || running.startedAt == finished.startedAt)
  }

  lemma {:induction false} TerminalRowIsFinal(j: Job, ws: seq<Write>)
    requires !j.status.Active()
    ensures ApplyAll(j, ws) == j
    decreases |ws|
  {
    if ws != [] {
      TerminalRowIsFinal(j, ws[1..]);
    }
  }

  lemma {:induction false} ApplyAllConcat(j: Job, ws: seq<Write>, ws': seq<Write>)
    ensures ApplyAll(j, ws + ws') == ApplyAll(ApplyAll(j, ws), ws')
    decreases |ws|
  {
    if ws == [] {
      assert ws + ws' == ws';
    } else {
      assert (ws + ws')[1..] == ws[1..] + ws';
      ApplyAllConcat(Apply(j, ws[0]), ws[1..], ws');
    }
  }

  /** The row a set of deliveries settles on, whatever their order and multiplicity. */
  function Settled(j: Job, running: GHJob, finished: GHJob, sawRunning: bool, sawFinished: bool): Job {
    if sawFinished then Apply(j, Finished(finished))
    else if sawRunning then Apply(j, InProgress(running))
    else j
  }

  lemma {:induction false} DeliveriesSettle(
    start: Job, ran: bool, ws: seq<Write>, running: GHJob, finished: GHJob)
    requires Fresh(start) && Deliveries(ws, running, finished) && Agree(running, finished)
    ensures ApplyAll(Settled(start, running, finished, ran, false), ws) ==
            Settled(start, running, finished, ran || SawRunning(ws), SawFinished(ws))
    decreases |ws|
  {
    if ws != [] {
      var w, rest, j := ws[0], ws[1..], Settled(start, running, finished, ran, false);
      assert w in ws && forall x :: x in rest ==> x in ws;
      assert forall x :: x in ws ==> x == w || x in rest;
      if w.Finished? {
        TerminalRowIsFinal(Apply(j, w), rest);
        assert Apply(j, w) == Apply(start, w);
      } else {
        DeliveriesSettle(start, ran || w.InProgress?, rest, running, finished);
      }
    }
  }

  /** Order and multiplicity of deliveries never matter if and only if the two kinds of
      write agree on the runner name and on a start time the in_progress write carries. */
  lemma ConfluenceIff(j: Job, running: GHJob, finished: GHJob)
    requires Fresh(j)
    ensures Agree(running, finished) <==>
            forall ws, ws' | Deliveries(ws, running, finished) && Deliveries(ws', running, finished)
                             && SawFinished(ws) == SawFinished(ws')
                             && (SawFinished(ws) || SawRunning(ws) == SawRunning(ws')) ::
              ApplyAll(j, ws) == ApplyAll(j, ws')
  {
    if Agree(running, finished) {
      forall ws, ws' | Deliveries(ws, running, finished) && Deliveries(ws', running, finished)
                       && SawFinished(ws) == SawFinished(ws')
                       && (SawFinished(ws) || SawRunning(ws) == SawRunning(ws'))
        ensures ApplyAll(j, ws) == ApplyAll(j, ws')
      {
        DeliveriesSettle(j, false, ws, running, finished);
        DeliveriesSettle(j, false, ws', running, finished);
      }
    } else {
      var late, inOrder := [Finished(finished)], [InProgress(running), Finished(finished)];
      assert inOrder[0].InProgress? && inOrder[1].Finished? && late[0].Finished?;
      assert SawFinished(late) && SawFinished(inOrder);
      assert inOrder[1..] == late && late[1..] == [];
      assert forall x: Job :: ApplyAll(x, late) == Apply(x, Finished(finished));
      assert ApplyAll(j, inOrder) == Apply(Apply(j, InProgress(running)), Finished(finished));
    }
  }

  /** The row whatever order and number of deliveries leave: the completed facts if one of them
      got through, else the in-progress ones, else the row as it was inserted. */
  lemma DeliveredFactsStand(start: Job, ws: seq<Write>, running: GHJob, finished: GHJob)
    requires Fresh(start) && Deliveries(ws, running, finished) && Agree(running, finished)
    ensures ApplyAll(start, ws) ==
      if SawFinished(ws) then
        start.(status := Completed, pod := Some(finished.runner), startedAt := finished.startedAt,
               completedAt := finished.completedAt, conclusion := finished.conclusion)
      else if SawRunning(ws) then start.(status := Running, pod := Some(running.runner), startedAt := running.startedAt)
      else start
  {
    DeliveriesSettle(start, false, ws, running, finished);
  }

  /** A row that is given up on keeps what it had learned and says why; what comes later is ignored. */
  lemma FirstFailureStands(start: Job, ws: seq<Write>, running: GHJob, info: string, late: seq<Write>)
    requires Fresh(start) && forall w :: w in ws ==> w == Queued || w == InProgress(running)
    ensures ApplyAll(start, ws + [Abandoned(info)] + late) ==
      (if SawRunning(ws) then start.(pod := Some(running.runner), startedAt := running.startedAt) else start)
        .(status := Failed, failure := Some(info))
  {
    var all := ws + [Abandoned(info)];
    DeliveriesSettle(start, false, ws, running, running);
    var j := ApplyAll(start, ws);
    ApplyAllConcat(start, all, late);
    ApplyAllConcat(start, ws, [Abandoned(info)]);
    assert ApplyAll(j, [Abandoned(info)]) == Apply(j, Abandoned(info));
    TerminalRowIsFinal(ApplyAll(start, all), late);
  }

  /** When the two kinds of facts disagree, a column the in-progress write set is not overwritten. */
  lemma LaterFactsFillGaps(start: Job, running: GHJob, finished: GHJob)
    requires Fresh(start)
    ensures ApplyAll(start, [InProgress(running), Finished(finished)]) ==
      start.(status := Completed, pod := Some(running.runner),
             startedAt := if running.startedAt.Some? then running.startedAt else finished.startedAt,
             completedAt := finished.completedAt, conclusion := finished.conclusion)
  {
    ApplyAllConcat(start, [InProgress(running)], [Finished(finished)]);
    assert [InProgress(running)] + [Finished(finished)] == [InProgress(running), Finished(finished)];
    assert forall j, w :: ApplyAll(j, [w]) == Apply(j, w);
  }

  /** With failures in the mix, nothing after the first terminal write has any effect. */
  lemma FirstTerminalWins(j: Job, ws: seq<Write>, k: nat)
    requires j.status.Active() && k < |ws| && ws[k].Terminal()
    ensures ApplyAll(j, ws) == ApplyAll(j, ws[..k + 1])
    ensures !ApplyAll(j, ws).status.Active()
  {
    var head := ws[..k];
    assert ws == ws[..k + 1] + ws[k + 1..] && ws[..k + 1] == head + [ws[k]];
    ApplyAllConcat(j, ws[..k + 1], ws[k + 1..]);
    ApplyAllConcat(j, head, [ws[k]]);
    var at := ApplyAll(j, head);
    assert ApplyAll(at, [ws[k]]) == Apply(at, ws[k]);
    TerminalRowIsFinal(Apply(at, ws[k]), ws[k + 1..]);
  }

  /** No write ever changes a column that is already set, nor identity and placement. */
  predicate Preserves(j: Job, j': Job) {
    && (j.pod.Some? ==> j'.pod == j.pod)
    && (j.startedAt.Some? ==> j'.startedAt == j.startedAt)
    && (j.completedAt.Some? ==> j'.completedAt == j.completedAt)
    && (j.conclusion.Some? ==> j'.conclusion == j.conclusion)
    && (!j.status.Active() ==> j' == j)
    && (j.status.Running? ==> !j'.status.Pending?)
    && j' == j.(status := j'.status, failure := j'.failure, pod := j'.pod, conclusion := j'.conclusion,
                startedAt := j'.startedAt, completedAt := j'.completedAt)
  }

  lemma {:induction false} SetColumnsNeverChange(j: Job, ws: seq<Write>)
    ensures Preserves(j, ApplyAll(j, ws))
    decreases |ws|
  {
    if ws != [] {
      SetColumnsNeverChange(Apply(j, ws[0]), ws[1..]);
    }
  }

  // ---- the table ----

  ghost predicate Keyed(rows: map<Id, Job>) {
    forall id :: id in rows ==> rows[id].id == id
  }

  /** `ORDER BY created_at, job_id`, and jobOlder in demand_match.go. */
  predicate Older(l: Job, r: Job) {
    if l.createdAt == r.createdAt then l.id.number < r.id.number else l.createdAt < r.createdAt
  }

  ghost predicate DistinctIds(s: set<Job>) {
    forall a, b :: a in s && b in s && a.id == b.id ==> a == b
  }

  ghost predicate IsOldest(o: Job, s: set<Job>) {
    o in s && forall j :: j in s && j != o ==> Older(o, j)
  }

  lemma {:induction false} OldestExists(s: set<Job>)
    requires s != {} && DistinctIds(s)
    ensures exists o :: IsOldest(o, s)
    decreases |s|
  {
    var o :| o in s;
    if s == {o} {
      assert IsOldest(o, s);
    } else {
      assert s - {o} != {};
      OldestExists(s - {o});
      var o' :| IsOldest(o', s - {o});
      if Older(o, o') {
        forall j | j in s && j != o ensures Older(o, j) {
          assert j == o' || Older(o', j);
        }
        assert IsOldest(o, s);
      } else {
        assert IsOldest(o', s);
      }
    }
  }

  ghost function Oldest(s: set<Job>): (o: Job)
    requires s != {} && DistinctIds(s)
    ensures IsOldest(o, s)
  {
    OldestExists(s);
    var o :| IsOldest(o, s);
    o
  }

  ghost function OldestFirst(s: set<Job>): seq<Job>
    requires DistinctIds(s)
    decreases |s|
  {
    if s == {} then [] else [Oldest(s)] + OldestFirst(s - {Oldest(s)})
  }

  ghost predicate InOrder(jobs: seq<Job>) {
    forall i, k :: 0 <= i < k < |jobs| ==> Older(jobs[i], jobs[k])
  }

  lemma {:induction false} OldestFirstSorts(s: set<Job>)
    requires DistinctIds(s)
    ensures forall j :: j in OldestFirst(s) <==> j in s
    ensures InOrder(OldestFirst(s))
    decreases |s|
  {
    if s != {} {
      var o := Oldest(s);
      OldestFirstSorts(s - {o});
      var rest := OldestFirst(s - {o});
      forall k | 0 <= k < |rest| ensures Older(o, rest[k]) {
        assert rest[k] in rest;
      }
    }
  }

  function PendingSet(rows: map<Id, Job>): set<Job> {
    set id | id in rows && rows[id].status.Pending? :: rows[id]
  }

  ghost function PendingJobs(rows: map<Id, Job>): seq<Job>
    requires Keyed(rows)
  {
    OldestFirst(PendingSet(rows))
  }

  /** The pending jobs, each once, by creation time and then by id. */
  lemma PendingJobsAreSorted(rows: map<Id, Job>)
    requires Keyed(rows)
    ensures var js := PendingJobs(rows);
      && (forall id :: (exists i :: 0 <= i < |js| && js[i].id == id) <==> id in rows && rows[id].status == Pending)
      && (forall i :: 0 <= i < |js| ==> js[i].id in rows && js[i] == rows[js[i].id])
      && (forall i, k :: 0 <= i < k < |js| ==>
            js[i].createdAt < js[k].createdAt || (js[i].createdAt == js[k].createdAt && js[i].id.number < js[k].id.number))
  {
    var js := PendingJobs(rows);
    OldestFirstSorts(PendingSet(rows));
    forall i | 0 <= i < |js| ensures js[i].id in rows && js[i] == rows[js[i].id] && js[i].status == Pending {
      assert js[i] in PendingSet(rows);
    }
    forall id | id in rows && rows[id].status == Pending ensures exists i :: 0 <= i < |js| && js[i].id == id {
      assert rows[id] in PendingSet(rows);
      var i :| 0 <= i < |js| && js[i] == rows[id];
    }
  }

  function Rewrite(rows: map<Id, Job>, id: Id, w: Write): map<Id, Job> {
    if id in rows then rows[id := Apply(rows[id], w)] else rows
  }

  class JobTable {
    var rows: map<Id, Job>

    constructor ()
      ensures rows == map[]
    {
      rows := map[];
    }

    /** INSERT ... ON CONFLICT (job_id) DO NOTHING; a conflict leaves the stored row alone. */
    method AddJob(j: Job) returns (created: bool)
      requires Fresh(j)
      modifies this
      ensures created == (j.id !in old(rows))
      ensures rows == if created then old(rows)[j.id := j] else Rewrite(old(rows), j.id, Queued)
    {
      created := j.id !in rows;
      if created {
        rows := rows[j.id := j];
      }
    }

    /** The previous status, or None when there is no such row: on both paths of the
        source that is the status the row had before the call. */
    method MarkJobRunning(gh: GHJob) returns (prev: Option<Status>)
      modifies this
      ensures rows == Rewrite(old(rows), gh.id, InProgress(gh))
      ensures prev == if gh.id in old(rows) then Some(old(rows)[gh.id].status) else None
    {
      if gh.id in rows && rows[gh.id].status.Pending? {
        var j := rows[gh.id];
        rows := rows[gh.id := j.(status := Running,
                                 pod := Coalesce(j.pod, Some(gh.runner)),
                                 startedAt := Coalesce(j.startedAt, gh.startedAt))];
        return Some(j.status);
      }
      prev := if gh.id in rows then Some(rows[gh.id].status) else None;
    }

    method MarkJobCompleted(gh: GHJob) returns (prev: Option<Status>)
      modifies this
      ensures rows == Rewrite(old(rows), gh.id, Finished(gh))
      ensures prev == if gh.id in old(rows) then Some(old(rows)[gh.id].status) else None
    {
      if gh.id in rows && (rows[gh.id].status.Pending? || rows[gh.id].status.Running?) {
        var j := rows[gh.id];
        rows := rows[gh.id := j.(status := Completed,
                                 pod := Coalesce(j.pod, Some(gh.runner)),
                                 startedAt := Coalesce(j.startedAt, gh.startedAt),
                                 completedAt := Coalesce(j.completedAt, gh.completedAt),
                                 conclusion := Coalesce(j.conclusion, gh.conclusion))];
        return Some(j.status);
      }
      prev := if gh.id in rows then Some(rows[gh.id].status) else None;
    }

    method MarkJobFailed(id: Id, info: string) returns (prev: Option<Status>)
      modifies this
      ensures rows == Rewrite(old(rows), id, Abandoned(info))
      ensures prev == if id in old(rows) then Some(old(rows)[id].status) else None
    {
      if id in rows && (rows[id].status.Pending? || rows[id].status.Running?) {
        var j := rows[id];
        rows := rows[id := j.(status := Failed, failure := Some(info))];
        return Some(j.status);
      }
      prev := if id in rows then Some(rows[id].status) else None;
    }

    /** JobExistsForPod */
    predicate ExistsForPod(pod: string) reads this {
      exists id :: id in rows && rows[id].pod == Some(pod)
    }

    /** GetPendingJobs: WHERE status = 'pending' ORDER BY created_at, job_id. */
    method GetPendingJobs() returns (pending: seq<Job>)
      requires Keyed(rows)
      ensures pending == PendingJobs(rows)
    {
      var todo := PendingSet(rows);
      pending := [];
      while todo != {}
        invariant DistinctIds(todo)
        invariant PendingJobs(rows) == pending + OldestFirst(todo)
        decreases |todo|
      {
        var next := PickOldest(todo);
        pending := pending + [next];
        todo := todo - {next};
      }
    }
  }

  method PickOldest(s: set<Job>) returns (o: Job)
    requires s != {} && DistinctIds(s)
    ensures o in s && o == Oldest(s)
  {
    o :| o in s;
    var rest := s - {o};
    while rest != {}
      invariant rest <= s && o in s && o !in rest
      invariant forall j :: j in s && j !in rest && j != o ==> Older(o, j)
      decreases |rest|
    {
      var j :| j in rest;
      if Older(j, o) {
        o := j;
      }
      rest := rest - {j};
    }
    assert IsOldest(o, s);
  }

  // ---- sync_jobs.go ----

  datatype AuthAnswer = AuthOk | AuthNotFound | AuthError
  datatype InfoAnswer = Found(gh: GHJob) | InfoNotFound | InfoError
  datatype RunAnswer = Run(status: string, conclusion: Option<string>) | RunError

  /** What GitHub answers when the sync asks about one job. */
  datatype Answer = Answer(auth: AuthAnswer, info: InfoAnswer, run: RunAnswer)

  ghost predicate AboutJob(a: Answer, id: Id) {
    a.info.Found? ==> a.info.gh.id == id
  }

  /** GitHub considers the job over: status completed, or any non-empty conclusion. */
  predicate Over(gh: GHJob) {
    gh.status == "completed" || (gh.conclusion.Some? && gh.conclusion.value != "")
  }

  predicate Asked(j: Job) { j.repo != "" && j.kind.Some? }

  /** Queued on GitHub for ten minutes while its workflow run has finished. */
  predicate Stuck(j: Job, a: Answer, now: int) {
    && a.info.Found? && !Over(a.info.gh) && a.info.gh.status == "queued"
    && a.info.gh.runId != 0 && now - j.createdAt >= STUCK_QUEUED_MIN_AGE
    && a.run.Run? && a.run.status == "completed"
  }

  predicate Lost(j: Job, a: Answer, now: int) {
    && Asked(j)
    && (a.auth.AuthNotFound? || (a.auth.AuthOk? && (a.info.InfoNotFound? || Stuck(j, a, now))))
  }

  /** The write the sync issues for one active job, if any. */
  function Verdict(j: Job, a: Answer, now: int): Write {
    if Lost(j, a, now) then Abandoned(Reason(a))
    else if !Asked(j) || !a.auth.AuthOk? || !a.info.Found? then Queued
    else if Over(a.info.gh) then Finished(a.info.gh)
    else if a.info.gh.status == "in_progress" then InProgress(a.info.gh)
    else Queued
  }

  function Reason(a: Answer): string {
    if a.auth.AuthNotFound? then "installation not found"
    else if a.info.InfoNotFound? then "job not found"
    else if a.run.Run? && a.run.conclusion.Some? && a.run.conclusion.value != "" then
      "run completed (" + a.run.conclusion.value + ") while job stayed queued"
    else "run completed (unknown) while job stayed queued"
  }

  function SyncJobs(rows: map<Id, Job>, answers: Id -> Answer, now: int): map<Id, Job> {
    map id | id in rows ::
      if rows[id].status.Active() then Apply(rows[id], Verdict(rows[id], answers(id), now)) else rows[id]
  }

  /** syncOneJob and reconcileStuckQueued for one row of GetActiveJobs. */
  method SyncOneJob(db: JobTable, j: Job, a: Answer, now: int)
    requires j.id in db.rows && db.rows[j.id] == j && j.status.Active() && AboutJob(a, j.id)
    modifies db
    ensures db.rows == old(db.rows)[j.id := Apply(j, Verdict(j, a, now))]
  {
    if j.repo == "" || j.kind.None? {
      return;
    }
    if !a.auth.AuthOk? {
      if a.auth.AuthNotFound? {
        var _ := db.MarkJobFailed(j.id, Reason(a));
      }
      return;
    }
    if !a.info.Found? {
      if a.info.InfoNotFound? {
        var _ := db.MarkJobFailed(j.id, Reason(a));
      }
      return;
    }
    var gh := a.info.gh;
    var status := gh.status;
    if gh.conclusion.Some? && gh.conclusion.value != "" {
      status := "completed";
    }
    if status == "completed" {
      var _ := db.MarkJobCompleted(gh);
    } else if status == "in_progress" {
      if j.status.Pending? {
        var _ := db.MarkJobRunning(gh);
      }
    } else if status == "queued" {
      if gh.runId == 0 || now - j.createdAt < STUCK_QUEUED_MIN_AGE {
        return;
      }
      if a.run.RunError? || a.run.status != "completed" {
        return;
      }
      var _ := db.MarkJobFailed(j.id, Reason(a));
    }
  }

  /** syncJobsState: the rows are read once, then each active one is converged.  The loop
      order is left open; ids are unique, so it cannot matter. */
  method SyncJobsState(db: JobTable, answers: Id -> Answer, now: int)
    requires Keyed(db.rows) && forall id :: AboutJob(answers(id), id)
    modifies db
    ensures db.rows == SyncJobs(old(db.rows), answers, now)
  {
    var jobs := db.rows;
    var todo := set id | id in jobs && jobs[id].status.Active();
    while todo != {}
      invariant todo <= jobs.Keys && forall id :: id in todo ==> jobs[id].status.Active()
      invariant db.rows.Keys == jobs.Keys
      invariant forall id :: id in jobs ==>
        db.rows[id] == if id in todo then jobs[id] else SyncJobs(jobs, answers, now)[id]
      decreases |todo|
    {
      var id :| id in todo;
      SyncOneJob(db, jobs[id], answers(id), now);
      todo := todo - {id};
    }
    assert db.rows == SyncJobs(jobs, answers, now);
  }

  /** GitHub shows the job queued under a workflow run, ten minutes after we stored it, and says
      that run has completed. */
  predicate LeftBehind(j: Job, a: Answer, now: int) {
    && a.info.Found? && a.info.gh.status == "queued" && a.info.gh.runId != 0
    && (a.info.gh.conclusion == None || a.info.gh.conclusion == Some(""))
    && now - j.createdAt >= 600 && a.run.Run? && a.run.status == "completed"
  }

  /** What GitHub is asked about, and its answer not to be had. */
  predicate Unanswered(j: Job, a: Answer) {
    j.repo == "" || j.kind == None || a.auth == AuthError || (a.auth == AuthOk && a.info == InfoError)
  }

  /** The failure names the conclusion of the run, or says that it is unknown. */
  predicate Blames(info: Option<string>, conclusion: Option<string>) {
    if conclusion == None || conclusion == Some("") then info == Some("run completed (unknown) while job stayed queued")
    else info == Some("run completed (" + conclusion.value + ") while job stayed queued")
  }

  lemma LeftBehindReason(j: Job, a: Answer, now: int)
    requires LeftBehind(j, a, now) && a.auth == AuthOk
    ensures Blames(Some(Reason(a)), a.run.conclusion)
  {
  }

  /** After a sync an active row agrees with what GitHub said, in every case. */
  lemma SyncAgreesWithGitHub(rows: map<Id, Job>, answers: Id -> Answer, now: int, id: Id)
    requires id in rows && rows[id].status.Active()
    ensures id in SyncJobs(rows, answers, now)
    ensures var j, a, j' := rows[id], answers(id), SyncJobs(rows, answers, now)[id];
      if Unanswered(j, a) then j' == j
      else if a.auth == AuthNotFound then j' == j.(status := Failed, failure := Some("installation not found"))
      else if a.info == InfoNotFound then j' == j.(status := Failed, failure := Some("job not found"))
      else if a.info.gh.status == "completed" || (a.info.gh.conclusion.Some? && a.info.gh.conclusion != Some("")) then
        j' == j.(status := Completed,
                 pod := if j.pod.Some? then j.pod else Some(a.info.gh.runner),
                 startedAt := if j.startedAt.Some? then j.startedAt else a.info.gh.startedAt,
                 completedAt := if j.completedAt.Some? then j.completedAt else a.info.gh.completedAt,
                 conclusion := if j.conclusion.Some? then j.conclusion else a.info.gh.conclusion)
      else if a.info.gh.status == "in_progress" && j.status == Pending then
        j' == j.(status := Running,
                 pod := if j.pod.Some? then j.pod else Some(a.info.gh.runner),
                 startedAt := if j.startedAt.Some? then j.startedAt else a.info.gh.startedAt)
      else if LeftBehind(j, a, now) then
        j' == j.(status := Failed, failure := j'.failure) && Blames(j'.failure, a.run.conclusion)
      else j' == j
  {
    if LeftBehind(rows[id], answers(id), now) && answers(id).auth == AuthOk {
      LeftBehindReason(rows[id], answers(id), now);
    }
  }

  /** The sync makes up for lost webhooks: whatever deliveries about a job got through, in
      whatever order, if GitHub shows the facts of the completed one the sync leaves the row that
      one would have left, and no delivery that still arrives changes it.  Likewise in progress. */
  lemma SyncMakesUpForLostWebhooks(rows: map<Id, Job>, id: Id, start: Job, ws: seq<Write>, late: seq<Write>,
                                   running: GHJob, finished: GHJob, answers: Id -> Answer, now: int)
    requires Fresh(start) && Asked(start) && Agree(running, finished)
    requires Deliveries(ws, running, finished) && Deliveries(late, running, finished)
    requires id in rows && rows[id] == ApplyAll(start, ws) && answers(id).auth.AuthOk?
    ensures answers(id).info == Found(finished) && Over(finished) ==>
              ApplyAll(SyncJobs(rows, answers, now)[id], late) == Apply(start, Finished(finished))
    ensures answers(id).info == Found(running) && !Over(running) && running.status == "in_progress" && !SawFinished(ws) ==>
              SyncJobs(rows, answers, now)[id] == Apply(start, InProgress(running))
  {
    var synced := SyncJobs(rows, answers, now)[id];
    DeliveriesSettle(start, false, ws, running, finished);
    assert synced == if rows[id].status.Active() then Apply(rows[id], Verdict(rows[id], answers(id), now)) else rows[id];
    if answers(id).info == Found(finished) && Over(finished) {
      TerminalRowIsFinal(Apply(start, Finished(finished)), late);
    }
  }

  /** Against unchanged answers a second sync changes nothing. */
  lemma SyncIdempotent(rows: map<Id, Job>, answers: Id -> Answer, now: int)
    ensures SyncJobs(SyncJobs(rows, answers, now), answers, now) == SyncJobs(rows, answers, now)
  {
  }
}
