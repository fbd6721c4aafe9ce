/** Discovery work rows and the Scheduler jobs they own: a terminal work row drives its job to the
    matching terminal status, and a terminal job is never rewritten. */
module SchedulerParity {
  import opened Common

  // ---- Rows ----

  datatype WorkType =
    | PumpfunLatest
    | DexscreenerActive
    | GeckoTrending
    | SolanaTracker
    | IdentityMerge
    | OriginVerification
    | PumpswapConfirmation
    | EligibilityGates
    | UniformSelection
    | HandoffSlot1
    | HandoffSlot2

  datatype WorkState =
    | WorkPending
    | WorkRunning
    | WorkCooldown
    | WorkSucceeded
    | WorkCompleted
    | WorkFailed
    | WorkCancelled
    | WorkSkipped
    | WorkAbandoned
    | WorkSuperseded
    | Unmapped(text: string)

  datatype WorkId = WorkId(kind: WorkType, batch: string)

  datatype WorkRow = WorkRow(job: nat, state: WorkState, cause: Option<string>)

  datatype JobName = DiscoveryJob(kind: WorkType, batch: string) | FirstWindow(mint: string, pool: string)

  datatype JobStatus = JobPending | JobRunning | JobCooldown | JobSucceeded | JobFailed | JobSkipped | JobCancelled

  /** A job's identity is its row number; rows are never deleted. */
  datatype JobRow = JobRow(name: JobName, target: Option<nat>, status: JobStatus)

  type WorkTable = map<WorkId, WorkRow>
  type JobTable = seq<JobRow>

  predicate Open(state: WorkState) {
    state in {WorkPending, WorkRunning, WorkCooldown}
  }

  predicate ActiveJob(status: JobStatus) {
    status in {JobPending, JobRunning, JobCooldown}
  }

  datatype JobAction = Complete | Fail | Cancel

  function ActionFor(state: WorkState): Option<JobAction> {
    match state
    case WorkSucceeded | WorkCompleted => Some(Complete)
    case WorkFailed => Some(Fail)
    case WorkCancelled | WorkSkipped | WorkAbandoned | WorkSuperseded => Some(Cancel)
    case _ => None
  }

  function Applied(action: JobAction): JobStatus {
    match action
    case Complete => JobSucceeded
    case Fail => JobFailed
    case Cancel => JobCancelled
  }

  datatype ParityError = UnsupportedTerminalState(state: WorkState)

  // ---- Parity ----

  ghost predicate Owned(work: WorkTable, jobs: JobTable, id: WorkId)
    requires id in work
  {
    work[id].job < |jobs| && jobs[work[id].job].name == DiscoveryJob(id.kind, id.batch)
  }

  /** The row and the job it owns agree: both open, or both terminal with matching outcomes. */
  ghost predicate Agrees(work: WorkTable, jobs: JobTable, id: WorkId)
    requires id in work
  {
    && Owned(work, jobs, id)
    && var status := jobs[work[id].job].status;
       if Open(work[id].state) then ActiveJob(status)
       else ActionFor(work[id].state).Some? && status == Applied(ActionFor(work[id].state).value)
  }

  /** Discovery jobs have no target row, and of the jobs enqueued under one discovery name only the
      newest can be active. */
  ghost predicate JobsOrderly(jobs: JobTable) {
    && (forall j :: 0 <= j < |jobs| && jobs[j].name.DiscoveryJob? ==> jobs[j].target == None)
    && forall i, j :: 0 <= i < j < |jobs| && jobs[i].name.DiscoveryJob? && jobs[i].name == jobs[j].name ==> !ActiveJob(jobs[i].status)
  }

  ghost predicate Parity(work: WorkTable, jobs: JobTable) {
    && (forall id :: id in work ==> Agrees(work, jobs, id))
    && JobsOrderly(jobs)
  }

  function OpenRows(work: WorkTable, batch: string): set<WorkId> {
    set id | id in work && id.batch == batch && Open(work[id].state)
  }

  function BatchRows(work: WorkTable, batch: string): set<WorkId> {
    set id | id in work && id.batch == batch
  }

  // ---- Driving one job ----

  function Driven(jobs: JobTable, job: nat, state: WorkState): JobTable {
    if job < |jobs| && ActiveJob(jobs[job].status) && ActionFor(state).Some? then
      jobs[job := jobs[job].(status := Applied(ActionFor(state).value))]
    else jobs
  }

  /** Rows and jobs of the discovery schema, changed in place. */
  class Ledger {
    var work: WorkTable
    var jobs: JobTable

    constructor ()
      ensures work == map[] && jobs == []
      ensures Parity(work, jobs)
    {
      work, jobs := map[], [];
    }

    /** Drives one job terminal to match its work row; the first terminal status stays. */
    method TerminalizeSchedulerJobForWork(job: nat, state: WorkState) returns (r: Result<Option<JobAction>, ParityError>)
      modifies this`jobs
      ensures r.Err? <==> ActionFor(state).None?
      ensures jobs == Driven(old(jobs), job, state)
      ensures r.Ok? ==> (r.value.Some? <==> job < |old(jobs)| && ActiveJob(old(jobs)[job].status))
      ensures r.Ok? && r.value.Some? ==> r.value == ActionFor(state) && jobs != old(jobs)
    {
      var action := ActionFor(state);
      if action.None? {
        return Err(UnsupportedTerminalState(state));
      }
      if job >= |jobs| {
        return Ok(None);
      }
      if !ActiveJob(jobs[job].status) {
        return Ok(None);
      }
      ghost var before := jobs;
      match action.value {
        case Complete => jobs := jobs[job := jobs[job].(status := JobSucceeded)];
        case Fail => jobs := jobs[job := jobs[job].(status := JobFailed)];
        case Cancel => jobs := jobs[job := jobs[job].(status := JobCancelled)];
      }
      assert !ActiveJob(jobs[job].status) && ActiveJob(before[job].status);
      return Ok(Some(action.value));
    }

    /** Cancels the rows of a batch that are still open. */
    method CancelOpenRows(batch: string, abandoned: string) returns (cancelled: nat)
      modifies this`work
      ensures work == Abandoned(old(work), batch, abandoned)
      ensures cancelled == |OpenRows(old(work), batch)|
    {
      var active := OpenRows(work, batch);
      var todo := active;
      while todo != {}
        invariant todo <= active
        invariant work.Keys == old(work.Keys)
        invariant forall id :: id in work ==> work[id] == if id in active - todo then CancelledRow(old(work)[id], abandoned) else old(work)[id]
        decreases todo
      {
        var id :| id in todo;
        work := work[id := CancelledRow(work[id], abandoned)];
        todo := todo - {id};
      }
      assert active - todo == active;
      forall id | id in work ensures work[id] == Abandoned(old(work), batch, abandoned)[id] {
        assert id in active <==> id.batch == batch && Open(old(work)[id].state);
      }
      assert work.Keys == Abandoned(old(work), batch, abandoned).Keys;
      return |active|;
    }

    /** Drives the job of every row terminal, in any row order. */
    method DriveRows(rows: set<WorkId>) returns (r: Result<nat, ParityError>)
      requires forall id :: id in rows ==> id in work
      modifies this`jobs
      ensures r.Err? <==> exists id :: id in rows && ActionFor(work[id].state).None?
      ensures r.Ok? ==> JobsFollowRows(work, rows, old(jobs), jobs) && r.value == |Changed(old(jobs), jobs)|
    {
      var pending := rows;
      var actions := 0;
      ghost var start := jobs;
      assert Changed(start, jobs) == {};
      while pending != {}
        invariant pending <= rows
        invariant forall id :: id in rows - pending ==> ActionFor(work[id].state).Some?
        invariant JobsFollowRows(work, rows - pending, start, jobs)
        invariant actions == |Changed(start, jobs)|
        decreases pending
      {
        var id :| id in pending;
        ghost var before := jobs;
        var applied := TerminalizeSchedulerJobForWork(work[id].job, work[id].state);
        if applied.Err? {
          return Err(applied.error);
        }
        ghost var done := rows - pending;
        FollowOne(work, done, start, before, id);
        pending := pending - {id};
        assert rows - pending == done + {id};
        if applied.value.Some? {
          actions := actions + 1;
        }
      }
      assert rows - pending == rows;
      return Ok(actions);
    }

    /** Brings every work row of a batch and its job to terminal parity. */
    method Reconcile(batch: string, abandoned: string) returns (r: Result<ReconcileReport, ParityError>)
      modifies this
      ensures work == Abandoned(old(work), batch, abandoned)
      ensures OpenRows(work, batch) == {}
      ensures r.Err? <==> exists id :: id in BatchRows(work, batch) && ActionFor(work[id].state).None?
      ensures r.Ok? ==> JobsFollow(work, batch, old(jobs), jobs)
      ensures r.Ok? ==> r.value.workRows == |BatchRows(work, batch)| && r.value.cancelledActiveWork == |OpenRows(old(work), batch)|
      ensures r.Ok? ==> r.value.jobActions == |Changed(old(jobs), jobs)| && r.value.terminalWorkWithActiveJob == 0
    {
      ghost var start := jobs;
      var cancelled := CancelOpenRows(batch, abandoned);
      var rows := BatchRows(work, batch);
      var driven := DriveRows(rows);
      if driven.Err? {
        return Err(driven.error);
      }
      var remaining := set id | id in rows && !Open(work[id].state) && work[id].job < |jobs| && ActiveJob(jobs[work[id].job].status);
      forall id | id in rows && work[id].job < |jobs| ensures !ActiveJob(jobs[work[id].job].status) {
        LinkedJobEnds(work, rows, start, jobs, id);
      }
      assert remaining == {};
      return Ok(ReconcileReport(|rows|, cancelled, driven.value, |remaining|));
    }
  }

  datatype ReconcileReport = ReconcileReport(workRows: nat, cancelledActiveWork: nat, jobActions: nat, terminalWorkWithActiveJob: nat)

  // ---- Specification of reconciliation ----

  function CancelledRow(row: WorkRow, abandoned: string): WorkRow {
    row.(state := WorkCancelled, cause := if row.cause.Some? then row.cause else Some(abandoned))
  }

  function Abandoned(work: WorkTable, batch: string, abandoned: string): WorkTable {
    map id | id in work :: if id.batch == batch && Open(work[id].state) then CancelledRow(work[id], abandoned) else work[id]
  }

  /** Cancelling what is open: every pending, running or cooling row of the batch is cancelled and keeps a
      cause it has; every other row is as it was. */
  lemma AbandonedExactly(work: WorkTable, batch: string, abandoned: string)
    ensures var after := Abandoned(work, batch, abandoned);
            && after.Keys == work.Keys
            && forall id :: id in work ==>
                 var row := work[id];
                 after[id] == if id.batch != batch || row.state !in {WorkPending, WorkRunning, WorkCooldown} then row
                              else WorkRow(row.job, WorkCancelled, if row.cause.None? then Some(abandoned) else row.cause)
    ensures forall id :: id in OpenRows(work, batch) <==> id in work && id.batch == batch && work[id].state in {WorkPending, WorkRunning, WorkCooldown}
  {
  }

  /** A job is driven exactly while it is pending, running or cooling. */
  lemma DrivenExactly(jobs: JobTable, job: nat, state: WorkState)
    requires job < |jobs| && ActionFor(state).Some?
    ensures Driven(jobs, job, state)
         == if jobs[job].status in {JobPending, JobRunning, JobCooldown}
            then jobs[job := jobs[job].(status := if state in {WorkSucceeded, WorkCompleted} then JobSucceeded
                                                   else if state == WorkFailed then JobFailed else JobCancelled)]
            else jobs
  {
  }

  function Changed(before: JobTable, after: JobTable): set<nat> {
    set j: nat | j < |before| && j < |after| && before[j] != after[j]
  }

  ghost predicate LinkedBy(work: WorkTable, rows: set<WorkId>, j: nat) {
    exists id :: id in rows && id in work && work[id].job == j
  }

  ghost predicate DrivenBy(work: WorkTable, rows: set<WorkId>, before: JobRow, after: JobRow, j: nat) {
    exists id :: && id in rows && id in work && work[id].job == j && ActionFor(work[id].state).Some?
                 && after == before.(status := Applied(ActionFor(work[id].state).value))
  }

  /** Terminal and unlinked jobs are as before; every active linked job has the terminal status of
      a work row that links to it. */
  ghost predicate JobFollows(work: WorkTable, rows: set<WorkId>, before: JobTable, after: JobTable, j: nat)
    requires j < |before| && |after| == |before|
  {
    if !ActiveJob(before[j].status) || !LinkedBy(work, rows, j) then after[j] == before[j]
    else DrivenBy(work, rows, before[j], after[j], j)
  }

  ghost predicate JobsFollowRows(work: WorkTable, rows: set<WorkId>, before: JobTable, after: JobTable) {
    && |after| == |before|
    && forall j: nat :: j < |before| ==> JobFollows(work, rows, before, after, j)
  }

  ghost predicate JobsFollow(work: WorkTable, batch: string, before: JobTable, after: JobTable) {
    JobsFollowRows(work, BatchRows(work, batch), before, after)
  }

  lemma FollowOne(work: WorkTable, rows: set<WorkId>, start: JobTable, before: JobTable, id: WorkId)
    requires id in work && id !in rows && ActionFor(work[id].state).Some?
    requires JobsFollowRows(work, rows, start, before)
    ensures var after := Driven(before, work[id].job, work[id].state);
            && JobsFollowRows(work, rows + {id}, start, after)
            && |Changed(start, after)|
               == |Changed(start, before)| + if work[id].job < |before| && ActiveJob(before[work[id].job].status) then 1 else 0
  {
    var after, job := Driven(before, work[id].job, work[id].state), work[id].job;
    forall j: nat | j < |start| ensures JobFollows(work, rows + {id}, start, after, j) {
      assert JobFollows(work, rows, start, before, j);
      assert LinkedBy(work, rows + {id}, j) <==> LinkedBy(work, rows, j) || j == job;
    }
    if job < |before| && ActiveJob(before[job].status) {
      assert JobFollows(work, rows, start, before, job);
      assert Changed(start, after) == Changed(start, before) + {job};
    }
  }

  /** Every job a reconciled row links to ends terminal. */
  lemma LinkedJobEnds(work: WorkTable, rows: set<WorkId>, before: JobTable, after: JobTable, id: WorkId)
    requires JobsFollowRows(work, rows, before, after) && id in rows && id in work && work[id].job < |before|
    ensures !ActiveJob(after[work[id].job].status)
  {
    assert JobFollows(work, rows, before, after, work[id].job);
  }

  /** Already terminal jobs keep the status of their first terminal cause. */
  lemma TerminalJobsAreImmutable(work: WorkTable, batch: string, before: JobTable, after: JobTable, j: nat)
    requires JobsFollow(work, batch, before, after) && j < |before|
    ensures !ActiveJob(before[j].status) ==> after[j] == before[j]
    ensures after[j].(status := before[j].status) == before[j]
  {
    assert JobFollows(work, BatchRows(work, batch), before, after, j);
  }

  /** A second reconciliation, whatever cause it names, changes nothing. */
  lemma ReconcileIsIdempotent(
    work: WorkTable, batch: string, first: string, second: string, jobs: JobTable, once: JobTable, twice: JobTable)
    requires JobsFollow(Abandoned(work, batch, first), batch, jobs, once)
    requires JobsFollow(Abandoned(Abandoned(work, batch, first), batch, second), batch, once, twice)
    ensures Abandoned(Abandoned(work, batch, first), batch, second) == Abandoned(work, batch, first)
    ensures twice == once
  {
    var settled := Abandoned(work, batch, first);
    assert Abandoned(settled, batch, second) == settled;
    var rows := BatchRows(settled, batch);
    forall j: nat | j < |jobs| ensures twice[j] == once[j] {
      assert JobFollows(settled, rows, jobs, once, j) && JobFollows(settled, rows, once, twice, j);
    }
  }

  /** Two rows that agree with their jobs never own the same job. */
  lemma OwnersAreUnique(work: WorkTable, jobs: JobTable, a: WorkId, b: WorkId)
    requires a in work && b in work && Owned(work, jobs, a) && Owned(work, jobs, b) && work[a].job == work[b].job
    ensures a == b
  {
  }

  /** A row whose own state may already be terminal while its job is still waiting. */
  ghost predicate NearlyAgrees(work: WorkTable, jobs: JobTable, id: WorkId)
    requires id in work
  {
    && Owned(work, jobs, id)
    && var status := jobs[work[id].job].status;
       if Open(work[id].state) then ActiveJob(status)
       else ActionFor(work[id].state).Some? && (ActiveJob(status) || status == Applied(ActionFor(work[id].state).value))
  }

  ghost predicate NearParity(work: WorkTable, jobs: JobTable, batch: string) {
    && (forall id :: id in work ==> if id.batch == batch then NearlyAgrees(work, jobs, id) else Agrees(work, jobs, id))
    && JobsOrderly(jobs)
  }

  /** Reconciliation restores parity: afterwards every row of the batch is terminal and its job
      carries exactly the matching outcome. */
  lemma ReconcileRestoresParity(work: WorkTable, batch: string, abandoned: string, jobs: JobTable, after: JobTable)
    requires NearParity(work, jobs, batch)
    requires JobsFollow(Abandoned(work, batch, abandoned), batch, jobs, after)
    ensures Parity(Abandoned(work, batch, abandoned), after)
  {
    var settled := Abandoned(work, batch, abandoned);
    var rows := BatchRows(settled, batch);
    assert JobsOrderly(after) by {
      forall j | 0 <= j < |after| && after[j].name.DiscoveryJob? ensures after[j].target == None {
        TerminalJobsAreImmutable(settled, batch, jobs, after, j);
      }
      forall i, j | 0 <= i < j < |after| && after[i].name.DiscoveryJob? && after[i].name == after[j].name
        ensures !ActiveJob(after[i].status)
      {
        TerminalJobsAreImmutable(settled, batch, jobs, after, i);
        TerminalJobsAreImmutable(settled, batch, jobs, after, j);
      }
    }
    forall id | id in settled ensures Agrees(settled, after, id) {
      ReconciledRowAgrees(work, batch, abandoned, jobs, after, id);
    }
  }

  lemma ReconciledRowAgrees(work: WorkTable, batch: string, abandoned: string, jobs: JobTable, after: JobTable, id: WorkId)
    requires id in work && (if id.batch == batch then NearlyAgrees(work, jobs, id) else Agrees(work, jobs, id))
    requires forall other :: other in work ==> Owned(work, jobs, other)
    requires JobsFollow(Abandoned(work, batch, abandoned), batch, jobs, after)
    ensures Agrees(Abandoned(work, batch, abandoned), after, id)
  {
    var settled, j := Abandoned(work, batch, abandoned), work[id].job;
    var rows := BatchRows(settled, batch);
    TerminalJobsAreImmutable(settled, batch, jobs, after, j);
    assert JobFollows(settled, rows, jobs, after, j);
    if LinkedBy(settled, rows, j) {
      var other :| other in rows && other in settled && settled[other].job == j;
      OwnersAreUnique(work, jobs, id, other);
    }
    if id.batch == batch {
      assert id in rows && LinkedBy(settled, rows, j);
    }
  }

  // ---- Creating and ending single rows ----

  predicate ActiveDuplicate(jobs: JobTable, name: JobName, target: Option<nat>) {
    exists j :: 0 <= j < |jobs| && jobs[j].name == name && jobs[j].target == target && ActiveJob(jobs[j].status)
  }

  /** The newest job of a name, as `ORDER BY id DESC LIMIT 1` finds it. */
  function NewestNamed(jobs: JobTable, name: JobName): (r: Option<nat>)
    ensures r.Some? ==> r.value < |jobs| && jobs[r.value].name == name && forall j :: r.value < j < |jobs| ==> jobs[j].name != name
    ensures r.None? ==> forall j :: 0 <= j < |jobs| ==> jobs[j].name != name
  {
    if jobs == [] then None
    else if jobs[|jobs| - 1].name == name then Some(|jobs| - 1)
    else NewestNamed(jobs[..|jobs| - 1], name)
  }

  lemma ActiveDuplicateIsNewest(jobs: JobTable, name: JobName, target: Option<nat>)
    requires ActiveDuplicate(jobs, name, target)
    ensures NewestNamed(jobs, name).Some?
    ensures JobsOrderly(jobs) && name.DiscoveryJob? ==> ActiveJob(jobs[NewestNamed(jobs, name).value].status)
  {
    var j :| 0 <= j < |jobs| && jobs[j].name == name && jobs[j].target == target && ActiveJob(jobs[j].status);
    assert j <= NewestNamed(jobs, name).value;
  }

  /** A fresh job keeps parity when no job of its discovery name is active. */
  lemma EnqueueKeepsParity(work: WorkTable, jobs: JobTable, job: JobRow)
    requires Parity(work, jobs)
    requires job.name.DiscoveryJob? ==> job.target == None && forall j :: 0 <= j < |jobs| && jobs[j].name == job.name ==> !ActiveJob(jobs[j].status)
    ensures Parity(work, jobs + [job])
  {
    forall id | id in work ensures Agrees(work, jobs + [job], id) {
      assert Agrees(work, jobs, id);
    }
  }

  lemma OpeningKeepsParity(work: WorkTable, jobs: JobTable, id: WorkId, row: WorkRow)
    requires Parity(work, jobs) && id !in work && Open(row.state)
    requires row.job < |jobs| && jobs[row.job].name == DiscoveryJob(id.kind, id.batch) && ActiveJob(jobs[row.job].status)
    ensures Parity(work[id := row], jobs)
  {
    var after := work[id := row];
    forall other | other in after ensures Agrees(after, jobs, other) {
      if other != id {
        assert Agrees(work, jobs, other);
      }
    }
  }

  lemma EndingKeepsParity(work: WorkTable, jobs: JobTable, id: WorkId, state: WorkState, cause: Option<string>)
    requires Parity(work, jobs) && id in work && Open(work[id].state) && ActionFor(state).Some?
    ensures Parity(work[id := WorkRow(work[id].job, state, cause)], Driven(jobs, work[id].job, state))
  {
    var after, driven := work[id := WorkRow(work[id].job, state, cause)], Driven(jobs, work[id].job, state);
    assert Agrees(work, jobs, id);
    forall other | other in after ensures Agrees(after, driven, other) {
      assert Agrees(work, jobs, other);
      if other != id && work[other].job == work[id].job {
        OwnersAreUnique(work, jobs, other, id);
      }
    }
  }
}
