/** One combined discovery cycle as an outer transaction: it commits a settled batch or leaves the
    database as it was. */
module CombinedExecutor {
  import opened Common
  import opened SchedulerParity
  import opened TrackingHandoff
  import CategoricalSelection

  // ---- Plan ----

  /** What the body of one stage does between opening and ending its work row. */
  datatype StageOutcome = StageSucceeded(cause: string) | StageFailed(cause: string) | StageRaises(fault: Fault)

  datatype Canonical = Canonical(batch: string, selected: multiset<string>, facts: nat, schedulerWork: nat, handoffs: nat)

  /** Everything a cycle reads from its fixtures, the configuration tables and the source lanes.
      Any stage, and any step of the handoff, may raise. */
  datatype Plan = Plan(
    handoff: HandoffPlan,
    ownersAvailable: bool,
    sharedFault: Option<string>,
    preamble: Option<Fault>,
    content: nat,
    planned: WorkType -> bool,
    stage: WorkType -> StageOutcome,
    shortfallCause: string,
    healthyOrdinal: Option<int>,
    replacementFault: bool,
    reportFault: Option<Fault>,
    facts: nat)

  /** The intake stages in the order in which a cycle runs them. */
  const STAGES: seq<WorkType> :=
    [PumpfunLatest, GeckoTrending, SolanaTracker, DexscreenerActive,
     IdentityMerge, OriginVerification, PumpswapConfirmation, EligibilityGates]

  /** Lanes that a cycle may leave out. */
  const SECONDARY_LANES: set<WorkType> := {GeckoTrending, SolanaTracker, DexscreenerActive}

  /** Failures of an initial handoff that are committed as a failed batch; anything else undoes the cycle. */
  const INITIAL_FAILURES: set<string> :=
    {"HANDOFF_PREFLIGHT_FAILED", "HANDOFF_BEFORE_FIRST", "HANDOFF_DURING_SECOND", "FIRST_15M_JOB_FAILED",
     "DUPLICATE_ACTIVE_TRACKING", "COOLDOWN_REOPEN_REQUIRED", "TERMINAL_TRACKING_STATE", "UNSUPPORTED_TRACKING_QUEUE_STATE",
     "CONFLICTING_SLOT", "HEALTHY_SLOT_MUTATION", "HANDOFF_CEILING", "FORBIDDEN_WINDOW_ACTIVATION", "INITIAL_HANDOFF_INCOMPLETE"}

  datatype CycleEnd = Completed | TerminalFailure(cause: string)

  /** What `execute` reports. */
  datatype ExecutionResult = ExecutionResult(completed: bool, cause: string, schedulerWork: nat, handoffs: nat)

  // ---- What every step of a cycle keeps ----

  /** The committed tables, as one value. */
  datatype Database = Database(work: WorkTable, jobs: JobTable, batches: map<string, BatchRow>, tracking: Tracking)

  function DatabaseOf(conn: Connection): Database
    reads conn, conn.ledger
  {
    Database(conn.ledger.work, conn.ledger.jobs, conn.batches, conn.tracking)
  }

  function OpenIds(work: WorkTable): set<WorkId> {
    set id | id in work && Open(work[id].state)
  }

  /** Ended rows and the rows of other batches are as they were, and only the batch gained rows. */
  ghost predicate WorkKept(batch: string, work: WorkTable, after: WorkTable) {
    && (forall id :: id in work && (id.batch != batch || !Open(work[id].state)) ==> id in after && after[id] == work[id])
    && (forall id :: id in after && id !in work ==> id.batch == batch)
  }

  /** No job was deleted or renamed, and no terminal job was rewritten. */
  ghost predicate JobsKept(jobs: JobTable, after: JobTable) {
    && |jobs| <= |after|
    && forall j :: 0 <= j < |jobs| ==> after[j].name == jobs[j].name && after[j].target == jobs[j].target
                                       && (!ActiveJob(jobs[j].status) ==> after[j] == jobs[j])
  }

  /** What is recorded stays, and no row was left open that was not open before. */
  ghost predicate RowsKept(batch: string, work: WorkTable, jobs: JobTable, after: WorkTable, jobsAfter: JobTable) {
    OpenIds(after) <= OpenIds(work) && WorkKept(batch, work, after) && JobsKept(jobs, jobsAfter)
  }

  /** One or more steps of a batch: rows and jobs stay in parity besides. */
  ghost predicate Progressed(batch: string, work: WorkTable, jobs: JobTable, after: WorkTable, jobsAfter: JobTable) {
    && RowsKept(batch, work, jobs, after, jobsAfter)
    && (Parity(work, jobs) ==> Parity(after, jobsAfter))
  }

  lemma ProgressedTrans(batch: string, w: WorkTable, j: JobTable, w1: WorkTable, j1: JobTable, w2: WorkTable, j2: JobTable)
    requires Progressed(batch, w, j, w1, j1) && Progressed(batch, w1, j1, w2, j2)
    ensures Progressed(batch, w, j, w2, j2)
  {
    WorkKeptTrans(batch, w, w1, w2);
  }

  lemma WorkKeptTrans(batch: string, w: WorkTable, w1: WorkTable, w2: WorkTable)
    requires WorkKept(batch, w, w1) && WorkKept(batch, w1, w2)
    ensures WorkKept(batch, w, w2)
  {
  }

  // ---- Stages ----

  /** The rows and jobs a cycle writes, and the scheduler work it has been charged. */
  datatype Books = Books(work: WorkTable, jobs: JobTable, schedulerWork: nat)

  function BookOpened(b: Books, id: WorkId): Books {
    Books(b.work[id := NewRow(b.jobs, id)], WithJob(b.jobs, NameOf(id)), b.schedulerWork + 1)
  }

  function BookEnded(b: Books, id: WorkId, state: WorkState, cause: string): Books {
    Books(Ended(b.work, id, state, cause), JobsEnded(b.work, b.jobs, id, state), b.schedulerWork)
  }

  predicate Ran(plan: Plan, kind: WorkType) {
    kind !in SECONDARY_LANES || plan.planned(kind)
  }

  function StageBooks(plan: Plan, kind: WorkType, b: Books): Result<Books, Fault> {
    var id := WorkId(kind, plan.handoff.batch);
    var fault := OpenFault(b.work, b.jobs, b.schedulerWork, id);
    if !Ran(plan, kind) then Ok(b)
    else if fault.Some? then Err(fault.value)
    else
      match plan.stage(kind)
      case StageRaises(raised) => Err(raised)
      case StageSucceeded(cause) => Ok(BookEnded(BookOpened(b, id), id, WorkSucceeded, cause))
      case StageFailed(cause) => Ok(BookEnded(BookOpened(b, id), id, WorkFailed, cause))
  }

  function StageStep(plan: Plan): (nat, WorkType, Books) -> Result<Books, Fault> {
    (i: nat, kind: WorkType, b: Books) => StageBooks(plan, kind, b)
  }

  /** The given stages, one after the other. */
  function IntakeBooks(plan: Plan, kinds: seq<WorkType>, b: Books): Result<Books, Fault> {
    RunSteps(kinds, StageStep(plan), b)
  }

  /** One work row, opened and ended around the body of its stage. */
  method RunStage(conn: Connection, usage: Usage, plan: Plan, kind: WorkType) returns (f: Option<Fault>)
    modifies conn.ledger, usage`schedulerWork
    ensures var r := StageBooks(plan, kind, Books(old(conn.ledger.work), old(conn.ledger.jobs), old(usage.schedulerWork)));
            if r.Err? then f == Some(r.error)
            else f.None? && Books(conn.ledger.work, conn.ledger.jobs, usage.schedulerWork) == r.value
    ensures old(usage.schedulerWork) <= SCHEDULER_WORK_CEILING ==> usage.schedulerWork <= SCHEDULER_WORK_CEILING
  {
    if kind in SECONDARY_LANES && !plan.planned(kind) {
      return None;
    }
    var created := CreateWork(conn, usage, kind, plan.handoff.batch);
    if created.Err? {
      return Some(created.error);
    }
    match plan.stage(kind) {
      case StageRaises(fault) => return Some(fault);
      case StageSucceeded(cause) => TerminalizeWork(conn, created.value, WorkSucceeded, cause);
      case StageFailed(cause) => TerminalizeWork(conn, created.value, WorkFailed, cause);
    }
    return None;
  }

  /** The intake lanes, the merge, the two verifications and the gates. */
  method RunIntake(conn: Connection, usage: Usage, plan: Plan, kinds: seq<WorkType>) returns (f: Option<Fault>)
    modifies conn.ledger, usage`schedulerWork
    ensures var r := IntakeBooks(plan, kinds, Books(old(conn.ledger.work), old(conn.ledger.jobs), old(usage.schedulerWork)));
            if r.Err? then f == Some(r.error)
            else f.None? && Books(conn.ledger.work, conn.ledger.jobs, usage.schedulerWork) == r.value
    ensures old(usage.schedulerWork) <= SCHEDULER_WORK_CEILING ==> usage.schedulerWork <= SCHEDULER_WORK_CEILING
  {
    ghost var start := Books(conn.ledger.work, conn.ledger.jobs, usage.schedulerWork);
    for i := 0 to |kinds|
      invariant IntakeBooks(plan, kinds[..i], start) == Ok(Books(conn.ledger.work, conn.ledger.jobs, usage.schedulerWork))
      invariant old(usage.schedulerWork) <= SCHEDULER_WORK_CEILING ==> usage.schedulerWork <= SCHEDULER_WORK_CEILING
    {
      RunStepsNext(kinds, i, StageStep(plan), start, Books(conn.ledger.work, conn.ledger.jobs, usage.schedulerWork));
      f := RunStage(conn, usage, plan, kinds[i]);
      if f.Some? {
        RunStepsEnd(kinds, i + 1, StageStep(plan), start);
        return;
      }
    }
    assert kinds[..|kinds|] == kinds;
    return None;
  }

  /** A row that was opened and ended in one stage. */
  lemma StageProgress(b: Books, id: WorkId, state: WorkState, cause: string)
    requires OpenFault(b.work, b.jobs, b.schedulerWork, id).None? && ActionFor(state).Some?
    ensures var r := BookEnded(BookOpened(b, id), id, state, cause);
            && Progressed(id.batch, b.work, b.jobs, r.work, r.jobs)
            && id in r.work && r.work[id].state == state && r.work[id].cause == Some(cause)
            && (forall other :: other in r.work <==> other in b.work || other == id)
  {
    var open := BookOpened(b, id);
    if Parity(b.work, b.jobs) {
      OpenedKeepsParity(b.work, b.jobs, open.jobs, id, open.work[id]);
      EndingKeepsParity(open.work, open.jobs, id, state, Some(cause));
    }
  }

  function OutcomeState(outcome: StageOutcome): WorkState {
    if outcome.StageSucceeded? then WorkSucceeded else WorkFailed
  }

  /** The row of a stage says how the stage ended. */
  ghost predicate StageRecorded(plan: Plan, kind: WorkType, work: WorkTable) {
    var id, outcome := WorkId(kind, plan.handoff.batch), plan.stage(kind);
    && id in work && !outcome.StageRaises?
    && work[id].state == OutcomeState(outcome) && work[id].cause == Some(outcome.cause)
  }

  ghost predicate IntakeRecorded(plan: Plan, kinds: seq<WorkType>, work: WorkTable) {
    forall kind :: kind in kinds && Ran(plan, kind) ==> StageRecorded(plan, kind, work)
  }

  lemma RecordsStay(plan: Plan, kinds: seq<WorkType>, work: WorkTable, after: WorkTable)
    requires IntakeRecorded(plan, kinds, work) && WorkKept(plan.handoff.batch, work, after)
    ensures IntakeRecorded(plan, kinds, after)
  {
    forall kind | kind in kinds && Ran(plan, kind) ensures StageRecorded(plan, kind, after) {
      assert StageRecorded(plan, kind, work);
    }
  }

  /** The intake writes one ended row for every stage that ran, and touches nothing that had ended. */
  lemma {:induction false} IntakeRecords(plan: Plan, kinds: seq<WorkType>, b: Books)
    requires IntakeBooks(plan, kinds, b).Ok?
    ensures var r := IntakeBooks(plan, kinds, b).value;
            Progressed(plan.handoff.batch, b.work, b.jobs, r.work, r.jobs) && IntakeRecorded(plan, kinds, r.work)
    decreases |kinds|
  {
    if kinds != [] {
      var front, kind := kinds[..|kinds| - 1], kinds[|kinds| - 1];
      var m, r := IntakeBooks(plan, front, b).value, IntakeBooks(plan, kinds, b).value;
      IntakeRecords(plan, front, b);
      StageRecords(plan, kind, m);
      ProgressedTrans(plan.handoff.batch, b.work, b.jobs, m.work, m.jobs, r.work, r.jobs);
      RecordsStay(plan, front, m.work, r.work);
    }
  }

  lemma StageRecords(plan: Plan, kind: WorkType, b: Books)
    requires StageBooks(plan, kind, b).Ok?
    ensures var r := StageBooks(plan, kind, b).value;
            && Progressed(plan.handoff.batch, b.work, b.jobs, r.work, r.jobs)
            && (Ran(plan, kind) ==> StageRecorded(plan, kind, r.work))
  {
    if Ran(plan, kind) {
      var outcome := plan.stage(kind);
      StageProgress(b, WorkId(kind, plan.handoff.batch), OutcomeState(outcome), outcome.cause);
    }
  }

  // ---- Which rows a cycle adds ----

  /** The batch gained exactly the rows of these kinds, and one unit was charged for each of them. */
  ghost predicate RowsAdded(batch: string, kinds: set<WorkType>, work: WorkTable, charge: nat, after: WorkTable, chargeAfter: nat) {
    && (forall id :: id in after <==> id in work || (id.batch == batch && id.kind in kinds))
    && chargeAfter == charge + |kinds|
  }

  lemma RowsAddedTrans(
    batch: string, kinds: set<WorkType>, more: set<WorkType>, w: WorkTable, c: nat, w1: WorkTable, c1: nat, w2: WorkTable, c2: nat)
    requires RowsAdded(batch, kinds, w, c, w1, c1) && RowsAdded(batch, more, w1, c1, w2, c2) && kinds !! more
    ensures RowsAdded(batch, kinds + more, w, c, w2, c2)
  {
  }

  lemma NoRowsAdded(batch: string, work: WorkTable, charge: nat)
    ensures RowsAdded(batch, {}, work, charge, work, charge)
  {
  }

  /** Failing rows adds none. */
  lemma SameRows(batch: string, kinds: set<WorkType>, w: WorkTable, c: nat, w1: WorkTable, w2: WorkTable, c1: nat)
    requires RowsAdded(batch, kinds, w, c, w1, c1) && w2.Keys == w1.Keys
    ensures RowsAdded(batch, kinds, w, c, w2, c1)
  {
    assert forall id :: id in w2 <==> id in w1;
  }

  function RanKinds(plan: Plan, kinds: seq<WorkType>): set<WorkType> {
    set kind | kind in kinds && Ran(plan, kind)
  }

  lemma {:induction false} IntakeRows(plan: Plan, kinds: seq<WorkType>, b: Books)
    requires IntakeBooks(plan, kinds, b).Ok? && Distinct(kinds)
    ensures var r := IntakeBooks(plan, kinds, b).value;
            RowsAdded(plan.handoff.batch, RanKinds(plan, kinds), b.work, b.schedulerWork, r.work, r.schedulerWork)
    decreases |kinds|
  {
    if kinds == [] {
      assert RanKinds(plan, kinds) == {};
      NoRowsAdded(plan.handoff.batch, b.work, b.schedulerWork);
    } else {
      var front, kind := kinds[..|kinds| - 1], kinds[|kinds| - 1];
      var m, r := IntakeBooks(plan, front, b).value, IntakeBooks(plan, kinds, b).value;
      IntakeRows(plan, front, b);
      StageRows(plan, kind, m);
      LastRan(plan, kinds);
      RowsAddedTrans(plan.handoff.batch, RanKinds(plan, front), OwnKind(plan, kind), b.work, b.schedulerWork, m.work, m.schedulerWork, r.work, r.schedulerWork);
    }
  }

  function OwnKind(plan: Plan, kind: WorkType): set<WorkType> {
    if Ran(plan, kind) then {kind} else {}
  }

  lemma LastRan(plan: Plan, kinds: seq<WorkType>)
    requires kinds != [] && Distinct(kinds)
    ensures var front, last := kinds[..|kinds| - 1], kinds[|kinds| - 1];
            RanKinds(plan, kinds) == RanKinds(plan, front) + OwnKind(plan, last) && RanKinds(plan, front) !! OwnKind(plan, last)
  {
    var front, last := kinds[..|kinds| - 1], kinds[|kinds| - 1];
    assert kinds == front + [last] && last !in front;
  }

  lemma StageRows(plan: Plan, kind: WorkType, b: Books)
    requires StageBooks(plan, kind, b).Ok?
    ensures var r := StageBooks(plan, kind, b).value;
            RowsAdded(plan.handoff.batch, OwnKind(plan, kind), b.work, b.schedulerWork, r.work, r.schedulerWork)
  {
  }

  /** The secondary lanes that the plan asks for. */
  function PlannedLanes(plan: Plan): set<WorkType> {
    set kind | kind in {GeckoTrending, SolanaTracker, DexscreenerActive} && plan.planned(kind)
  }

  /** Five stages always run, and the planned secondary lanes. */
  function IntakeKinds(plan: Plan): set<WorkType> {
    {PumpfunLatest, IdentityMerge, OriginVerification, PumpswapConfirmation, EligibilityGates} + PlannedLanes(plan)
  }

  /** Five stages always run; the three secondary lanes run exactly when they are planned. */
  lemma StagesRun(plan: Plan)
    ensures Distinct(STAGES)
    ensures RanKinds(plan, STAGES) == IntakeKinds(plan)
  {
    assert STAGES[0] == PumpfunLatest && STAGES[1] == GeckoTrending && STAGES[2] == SolanaTracker && STAGES[3] == DexscreenerActive;
    assert STAGES[4] == IdentityMerge && STAGES[5] == OriginVerification && STAGES[6] == PumpswapConfirmation && STAGES[7] == EligibilityGates;
  }

  lemma IntakeAdds(plan: Plan, b: Books)
    requires IntakeBooks(plan, STAGES, b).Ok?
    ensures var r := IntakeBooks(plan, STAGES, b).value;
            RowsAdded(plan.handoff.batch, IntakeKinds(plan), b.work, b.schedulerWork, r.work, r.schedulerWork)
  {
    StagesRun(plan);
    IntakeRows(plan, STAGES, b);
  }

  // ---- Failing a batch ----

  function FailedRow(row: WorkRow, cause: string): WorkRow {
    row.(state := WorkFailed, cause := if row.cause.Some? then row.cause else Some(cause))
  }

  function OpenRowsFailed(work: WorkTable, batch: string, cause: string): WorkTable {
    map id | id in work :: if id.batch == batch && Open(work[id].state) then FailedRow(work[id], cause) else work[id]
  }

  /** Failing what is open: every pending, running or cooling row of the batch fails and keeps a cause it has. */
  lemma OpenRowsFailedExactly(work: WorkTable, batch: string, cause: string)
    ensures var after := OpenRowsFailed(work, batch, cause);
            && after.Keys == work.Keys
            && forall id :: id in work ==>
                 var row := work[id];
                 after[id] == if id.batch != batch || row.state !in {WorkPending, WorkRunning, WorkCooldown} then row
                              else WorkRow(row.job, WorkFailed, if row.cause.None? then Some(cause) else row.cause)
  {
  }

  function BatchFailed(batches: map<string, BatchRow>, batch: string, cause: string): map<string, BatchRow> {
    if batch in batches && batches[batch].failure.None? then batches[batch := batches[batch].(failure := Some(cause))] else batches
  }

  lemma FailedRowsNearParity(work: WorkTable, jobs: JobTable, batch: string, cause: string)
    requires Parity(work, jobs)
    ensures NearParity(OpenRowsFailed(work, batch, cause), jobs, batch)
  {
    forall id | id in work ensures Agrees(work, jobs, id) {
    }
  }

  lemma ParityIsNear(work: WorkTable, jobs: JobTable, batch: string)
    requires Parity(work, jobs)
    ensures NearParity(work, jobs, batch)
  {
    forall id | id in work ensures NearlyAgrees(work, jobs, id) {
      assert Agrees(work, jobs, id);
    }
  }

  lemma ReconciledJobsKept(work: WorkTable, batch: string, jobs: JobTable, after: JobTable)
    requires JobsFollow(work, batch, jobs, after)
    ensures JobsKept(jobs, after)
  {
    forall j | 0 <= j < |jobs|
      ensures after[j].name == jobs[j].name && after[j].target == jobs[j].target && (!ActiveJob(jobs[j].status) ==> after[j] == jobs[j])
    {
      TerminalJobsAreImmutable(work, batch, jobs, after, j);
    }
  }

  lemma EveryRowMapped(work: WorkTable, jobs: JobTable, batch: string, cause: string)
    requires NearParity(work, jobs, batch)
    ensures forall id :: id in BatchRows(Abandoned(work, batch, cause), batch) ==> ActionFor(Abandoned(work, batch, cause)[id].state).Some?
  {
    forall id | id in work && id.batch == batch ensures NearlyAgrees(work, jobs, id) {
    }
  }

  /** Only a row in a state that no job action is mapped to can make a reconciliation raise. */
  method ReconcileBatch(conn: Connection, batch: string, cause: string) returns (f: Option<Fault>)
    modifies conn.ledger
    ensures conn.ledger.work == Abandoned(old(conn.ledger.work), batch, cause)
    ensures NearParity(old(conn.ledger.work), old(conn.ledger.jobs), batch) ==> f.None? && Parity(conn.ledger.work, conn.ledger.jobs)
    ensures f.None? ==> JobsKept(old(conn.ledger.jobs), conn.ledger.jobs)
    ensures f.Some? ==> f == Some(OtherException)
  {
    ghost var work, jobs := conn.ledger.work, conn.ledger.jobs;
    var reconciled := conn.ledger.Reconcile(batch, cause);
    if NearParity(work, jobs, batch) {
      EveryRowMapped(work, jobs, batch, cause);
    }
    if reconciled.Err? {
      return Some(OtherException);
    }
    ReconciledJobsKept(conn.ledger.work, batch, jobs, conn.ledger.jobs);
    if NearParity(work, jobs, batch) {
      ReconcileRestoresParity(work, batch, cause, jobs, conn.ledger.jobs);
    }
    return None;
  }

  lemma AbandonedKept(work: WorkTable, batch: string, cause: string)
    ensures var after := Abandoned(work, batch, cause);
            WorkKept(batch, work, after) && OpenRows(after, batch) == {} && OpenIds(after) <= OpenIds(work)
  {
  }

  /** The first terminal cause of a batch stays; its open rows and their jobs end with it. */
  method MarkBatchFailed(conn: Connection, batch: string, cause: string) returns (f: Option<Fault>)
    modifies conn`batches, conn.ledger
    ensures conn.batches == BatchFailed(old(conn.batches), batch, cause)
    ensures conn.ledger.work == Abandoned(old(conn.ledger.work), batch, cause) && OpenRows(conn.ledger.work, batch) == {}
    ensures f.None? ==> Progressed(batch, old(conn.ledger.work), old(conn.ledger.jobs), conn.ledger.work, conn.ledger.jobs)
    ensures Parity(old(conn.ledger.work), old(conn.ledger.jobs)) ==> f.None?
  {
    conn.batches := BatchFailed(conn.batches, batch, cause);
    ghost var work, jobs := conn.ledger.work, conn.ledger.jobs;
    f := ReconcileBatch(conn, batch, cause);
    AbandonedKept(work, batch, cause);
    if Parity(work, jobs) {
      ParityIsNear(work, jobs, batch);
    }
  }

  /** Selection found fewer than two tokens for an initial activation: the selection row and every
      other open row of the batch fail, and so does the batch. */
  method FailShortfall(conn: Connection, plan: Plan, select: WorkId) returns (f: Option<Fault>)
    requires select in conn.ledger.work && Open(conn.ledger.work[select].state) && select.batch == plan.handoff.batch
    modifies conn`batches, conn.ledger
    ensures f.None? ==> conn.batches == BatchFailed(old(conn.batches), plan.handoff.batch, plan.shortfallCause)
    ensures conn.ledger.work == OpenRowsFailed(Ended(old(conn.ledger.work), select, WorkFailed, plan.shortfallCause), plan.handoff.batch, plan.shortfallCause)
    ensures f.None? ==> JobsKept(old(conn.ledger.jobs), conn.ledger.jobs)
    ensures Parity(old(conn.ledger.work), old(conn.ledger.jobs)) ==> f.None? && Parity(conn.ledger.work, conn.ledger.jobs)
  {
    var batch, cause := plan.handoff.batch, plan.shortfallCause;
    TerminalizeWork(conn, select, WorkFailed, cause);
    ghost var work, jobs := conn.ledger.work, conn.ledger.jobs;
    conn.ledger.work := OpenRowsFailed(conn.ledger.work, batch, cause);
    NothingOpen(work, batch, cause);
    if Parity(work, jobs) {
      FailedRowsNearParity(work, jobs, batch, cause);
    }
    f := ReconcileBatch(conn, batch, cause);
    if f.Some? {
      return;
    }
    f := MarkBatchFailed(conn, batch, cause);
  }

  lemma NothingOpen(work: WorkTable, batch: string, cause: string)
    ensures var after := OpenRowsFailed(work, batch, cause);
            && OpenRows(after, batch) == {} && OpenIds(after) <= OpenIds(work) && WorkKept(batch, work, after)
            && Abandoned(after, batch, cause) == after
  {
  }

  // ---- Replacement: one vacancy at a time ----

  datatype Tables = Tables(tracking: Tracking, books: Books, handoffs: nat)

  function OrdinalOf(plan: Plan, i: nat): int {
    if i < |plan.handoff.vacancies| then plan.handoff.vacancies[i] else i + 1
  }

  function ReplacedSlot(plan: Plan, i: nat, c: Selection, s: Tables): Result<Tables, Fault> {
    var h, ordinal := plan.handoff, OrdinalOf(plan, i);
    var id := WorkId(SlotWork(ordinal), h.batch);
    var opening := OpenFault(s.books.work, s.books.jobs, s.books.schedulerWork, id);
    var b := BookOpened(s.books, id);
    var fault := SlotFault(h, i, c, ordinal, s.tracking, b.jobs, s.handoffs);
    if plan.healthyOrdinal == Some(ordinal) then Err(Combined("HEALTHY_SLOT_MUTATION"))
    else if opening.Some? then Err(opening.value)
    else if plan.replacementFault then Err(Combined("DUPLICATE_ACTIVE_TRACKING"))
    else if fault.Some? then Err(fault.value)
    else Ok(Tables(SlotTracking(h, s.tracking, c, ordinal, |b.jobs|),
                   BookEnded(b.(jobs := b.jobs + [FirstWindowJob(c, |s.tracking.queue|)]), id, WorkSucceeded, "HANDOFF_COMPLETE"),
                   s.handoffs + 1))
  }

  /** The ordinal of a replaced slot is the vacancy at its place, and past the last one its place counted from one. */
  lemma VacancyOrdinals(plan: Plan, i: nat)
    ensures i < |plan.handoff.vacancies| ==> OrdinalOf(plan, i) == plan.handoff.vacancies[i]
    ensures i >= |plan.handoff.vacancies| ==> OrdinalOf(plan, i) == i + 1
  {
  }

  /** What stops a replacement of one vacancy: a slot that is still healthy, a row that cannot be opened, an
      injected failure, or whatever stops the slot. */
  lemma ReplacedSlotFault(plan: Plan, i: nat, c: Selection, s: Tables)
    ensures var id := WorkId(SlotWork(OrdinalOf(plan, i)), plan.handoff.batch);
            var queued := WithJob(s.books.jobs, NameOf(id));
            var r := ReplacedSlot(plan, i, c, s);
            IsFirst([When(plan.healthyOrdinal == Some(OrdinalOf(plan, i)), Combined("HEALTHY_SLOT_MUTATION")),
                     OpenFault(s.books.work, s.books.jobs, s.books.schedulerWork, id),
                     When(plan.replacementFault, Combined("DUPLICATE_ACTIVE_TRACKING")),
                     SlotFault(plan.handoff, i, c, OrdinalOf(plan, i), s.tracking, queued, s.handoffs)],
                    if r.Err? then Some(r.error) else None)
  {
    var id := WorkId(SlotWork(OrdinalOf(plan, i)), plan.handoff.batch);
    var r := ReplacedSlot(plan, i, c, s);
    FourChecks([When(plan.healthyOrdinal == Some(OrdinalOf(plan, i)), Combined("HEALTHY_SLOT_MUTATION")),
                OpenFault(s.books.work, s.books.jobs, s.books.schedulerWork, id),
                When(plan.replacementFault, Combined("DUPLICATE_ACTIVE_TRACKING")),
                SlotFault(plan.handoff, i, c, OrdinalOf(plan, i), s.tracking, WithJob(s.books.jobs, NameOf(id)), s.handoffs)],
               if r.Err? then Some(r.error) else None);
  }

  /** A replacement is refused for a selection batch that exists already, and for one of another cycle. */
  lemma ReplacementRefused(plan: Plan, s: Tables)
    ensures var h, r := plan.handoff, Replacement(plan, s);
            var known := h.selectionBatch in s.tracking.selectionBatches;
            var elsewhere := h.selectionBatch in s.tracking.batchLinks && s.tracking.batchLinks[h.selectionBatch] != h.batch;
            && (known ==> r == Err(OtherException))
            && (!known && elsewhere ==> r == Err(Persistence))
            && (!known && !elsewhere ==> r == RunSteps(h.selected, SlotStep(plan), s.(tracking := WithSelectionBatch(h, s.tracking))))
  {
  }

  function SlotStep(plan: Plan): (nat, Selection, Tables) -> Result<Tables, Fault> {
    (i: nat, c: Selection, s: Tables) => ReplacedSlot(plan, i, c, s)
  }

  function Replacement(plan: Plan, s: Tables): Result<Tables, Fault> {
    var h := plan.handoff;
    if h.selectionBatch in s.tracking.selectionBatches then Err(OtherException)
    else if h.selectionBatch in s.tracking.batchLinks && s.tracking.batchLinks[h.selectionBatch] != h.batch then Err(Persistence)
    else RunSteps(h.selected, SlotStep(plan), s.(tracking := WithSelectionBatch(h, s.tracking)))
  }

  function TablesOf(conn: Connection, usage: Usage): Tables
    reads conn, conn.ledger, usage
  {
    Tables(conn.tracking, Books(conn.ledger.work, conn.ledger.jobs, usage.schedulerWork), usage.handoffs)
  }

  /** One vacancy: open the handoff row, hand the token off, and on a typed failure end the row. */
  method ReplaceSlot(conn: Connection, usage: Usage, plan: Plan, i: nat) returns (f: Option<Fault>)
    requires i < |plan.handoff.selected|
    modifies conn`tracking, conn.ledger, usage
    ensures var r := ReplacedSlot(plan, i, plan.handoff.selected[i], old(TablesOf(conn, usage)));
            if r.Err? then f == Some(r.error) else f.None? && TablesOf(conn, usage) == r.value
    ensures old(usage.schedulerWork) <= SCHEDULER_WORK_CEILING ==> usage.schedulerWork <= SCHEDULER_WORK_CEILING
  {
    var h, ordinal := plan.handoff, OrdinalOf(plan, i);
    if plan.healthyOrdinal == Some(ordinal) {
      return Some(Combined("HEALTHY_SLOT_MUTATION"));
    }
    var created := CreateWork(conn, usage, SlotWork(ordinal), h.batch);
    if created.Err? {
      return Some(created.error);
    }
    f := Some(Combined("DUPLICATE_ACTIVE_TRACKING"));
    if !plan.replacementFault {
      f := HandoffOneSlot(conn, usage, h, i, h.selected[i], ordinal, created.value);
    }
    if f.Some? && f.value.Combined? {
      TerminalizeWork(conn, created.value, WorkFailed, "HANDOFF_ROLLED_BACK");
    }
  }

  method ReplaceSlots(conn: Connection, usage: Usage, plan: Plan) returns (f: Option<Fault>)
    modifies conn`tracking, conn.ledger, usage
    ensures var r := Replacement(plan, old(TablesOf(conn, usage)));
            if r.Err? then f == Some(r.error) else f.None? && TablesOf(conn, usage) == r.value
    ensures old(usage.schedulerWork) <= SCHEDULER_WORK_CEILING ==> usage.schedulerWork <= SCHEDULER_WORK_CEILING
  {
    var h := plan.handoff;
    if h.selectionBatch in conn.tracking.selectionBatches {
      return Some(OtherException);
    }
    if h.selectionBatch in conn.tracking.batchLinks && conn.tracking.batchLinks[h.selectionBatch] != h.batch {
      return Some(Persistence);
    }
    conn.tracking := WithSelectionBatch(h, conn.tracking);
    ghost var start := TablesOf(conn, usage);
    for i := 0 to |h.selected|
      invariant RunSteps(h.selected[..i], SlotStep(plan), start) == Ok(TablesOf(conn, usage))
      invariant old(usage.schedulerWork) <= SCHEDULER_WORK_CEILING ==> usage.schedulerWork <= SCHEDULER_WORK_CEILING
    {
      RunStepsNext(h.selected, i, SlotStep(plan), start, TablesOf(conn, usage));
      f := ReplaceSlot(conn, usage, plan, i);
      if f.Some? {
        RunStepsEnd(h.selected, i + 1, SlotStep(plan), start);
        return;
      }
    }
    assert h.selected[..|h.selected|] == h.selected;
    return None;
  }

  lemma ReplacedSlotProgress(plan: Plan, i: nat, c: Selection, s: Tables)
    requires ReplacedSlot(plan, i, c, s).Ok?
    ensures var r := ReplacedSlot(plan, i, c, s).value;
            && Progressed(plan.handoff.batch, s.books.work, s.books.jobs, r.books.work, r.books.jobs)
            && MayClaim(s.tracking.queue, c, plan.handoff.now)
            && r.handoffs == s.handoffs + 1 <= HANDOFF_CEILING && r.books.schedulerWork == s.books.schedulerWork + 1
            && r.tracking.queue == s.tracking.queue + [QueueRowOf(c)]
  {
    var id := WorkId(SlotWork(OrdinalOf(plan, i)), plan.handoff.batch);
    SlotTables(plan.handoff, s.tracking, c, OrdinalOf(plan, i), |BookOpened(s.books, id).jobs|);
    WindowedProgress(s.books, id, FirstWindowJob(c, |s.tracking.queue|));
  }

  /** A handoff row that was opened and ended around a new first-window job. */
  lemma WindowedProgress(b: Books, id: WorkId, window: JobRow)
    requires OpenFault(b.work, b.jobs, b.schedulerWork, id).None? && window.name.FirstWindow?
    ensures var open := BookOpened(b, id);
            var r := BookEnded(open.(jobs := open.jobs + [window]), id, WorkSucceeded, "HANDOFF_COMPLETE");
            Progressed(id.batch, b.work, b.jobs, r.work, r.jobs)
  {
    var open := BookOpened(b, id);
    if Parity(b.work, b.jobs) {
      OpenedKeepsParity(b.work, b.jobs, open.jobs, id, open.work[id]);
      EnqueueKeepsParity(open.work, open.jobs, window);
      EndingKeepsParity(open.work, open.jobs + [window], id, WorkSucceeded, Some("HANDOFF_COMPLETE"));
    }
  }

  function QueueRowOf(c: Selection): QueueRow {
    QueueRow(c.mint, PoolOf(c.market), Queued)
  }

  lemma SlotStepProgress(plan: Plan, i: nat, c: Selection, s: Tables)
    requires SlotStep(plan)(i, c, s).Ok?
    ensures var r := SlotStep(plan)(i, c, s).value;
            && Progressed(plan.handoff.batch, s.books.work, s.books.jobs, r.books.work, r.books.jobs)
            && r.handoffs == s.handoffs + 1 <= HANDOFF_CEILING && r.books.schedulerWork == s.books.schedulerWork + 1
            && r.tracking.queue == s.tracking.queue + [QueueRowOf(c)]
  {
    ReplacedSlotProgress(plan, i, c, s);
  }

  /** A replacement queues exactly the selected tokens, in order, and raises the handoffs by their number. */
  lemma {:induction false} ReplacementProgress(plan: Plan, selected: seq<Selection>, s: Tables)
    requires RunSteps(selected, SlotStep(plan), s).Ok?
    ensures var r := RunSteps(selected, SlotStep(plan), s).value;
            && Progressed(plan.handoff.batch, s.books.work, s.books.jobs, r.books.work, r.books.jobs)
            && r.books.schedulerWork == s.books.schedulerWork + |selected|
            && r.handoffs == s.handoffs + |selected| && (selected != [] ==> r.handoffs <= HANDOFF_CEILING)
            && r.tracking.queue == s.tracking.queue + Map(selected, QueueRowOf)
    decreases |selected|
  {
    if selected != [] {
      var last := |selected| - 1;
      var front, r := RunSteps(selected[..last], SlotStep(plan), s).value, RunSteps(selected, SlotStep(plan), s).value;
      ReplacementProgress(plan, selected[..last], s);
      SlotStepProgress(plan, last, selected[last], front);
      ProgressedTrans(plan.handoff.batch, s.books.work, s.books.jobs, front.books.work, front.books.jobs, r.books.work, r.books.jobs);
      MapLast(selected, QueueRowOf);
    }
  }

  // ---- Activation: what follows a selection of enough tokens ----

  function InitialPlan(plan: Plan): HandoffPlan {
    plan.handoff.(vacancies := [1, 2])
  }

  /** The handoff rows of an activation: both of an initial handoff that passed its preflight, or one
      for every vacancy that is replaced. */
  function HandoffKinds(plan: Plan, t: Tracking, charge: nat): set<WorkType> {
    if plan.handoff.mode == Initial then InitialKinds(InitialPlan(plan), t, charge) else ReplacedKinds(plan, |plan.handoff.selected|)
  }

  function InitialKinds(h: HandoffPlan, t: Tracking, charge: nat): set<WorkType> {
    if TurnedAway(h, t, charge, 0) then {} else {HandoffSlot1, HandoffSlot2}
  }

  function ReplacedKinds(plan: Plan, n: nat): set<WorkType> {
    set i | 0 <= i < n :: if OrdinalOf(plan, i) == 1 then HandoffSlot1 else HandoffSlot2
  }

  /** The rows of the vacancies replaced so far have ended, so none of them is opened again. */
  ghost predicate ReplacedEnded(plan: Plan, n: nat, work: WorkTable) {
    forall i: nat :: i < n ==> RowEnded(plan, i, work)
  }

  ghost predicate RowEnded(plan: Plan, i: nat, work: WorkTable) {
    var id := WorkId(SlotWork(OrdinalOf(plan, i)), plan.handoff.batch);
    id in work && work[id].state == WorkSucceeded
  }

  lemma ReplacedSlotRows(plan: Plan, n: nat, c: Selection, s: Tables)
    requires ReplacedSlot(plan, n, c, s).Ok? && ReplacedEnded(plan, n, s.books.work)
    ensures var r, kind := ReplacedSlot(plan, n, c, s).value, SlotWork(OrdinalOf(plan, n));
            && kind !in ReplacedKinds(plan, n) && ReplacedEnded(plan, n + 1, r.books.work)
            && RowsAdded(plan.handoff.batch, {kind}, s.books.work, s.books.schedulerWork, r.books.work, r.books.schedulerWork)
  {
    var r, kind := ReplacedSlot(plan, n, c, s).value, SlotWork(OrdinalOf(plan, n));
    var id := WorkId(kind, plan.handoff.batch);
    assert OpenFault(s.books.work, s.books.jobs, s.books.schedulerWork, id).None?;
    forall i: nat | i < n ensures SlotWork(OrdinalOf(plan, i)) != kind && RowEnded(plan, i, r.books.work) {
      assert RowEnded(plan, i, s.books.work);
    }
    assert RowEnded(plan, n, r.books.work);
  }

  /** The rows of the first n vacancies are there, ended, and charged. */
  ghost predicate VacanciesAdded(plan: Plan, n: nat, b: Books, r: Books) {
    && RowsAdded(plan.handoff.batch, ReplacedKinds(plan, n), b.work, b.schedulerWork, r.work, r.schedulerWork)
    && ReplacedEnded(plan, n, r.work)
  }

  lemma VacancyAdded(plan: Plan, n: nat, c: Selection, b: Books, m: Tables, r: Tables)
    requires VacanciesAdded(plan, n, b, m.books) && ReplacedSlot(plan, n, c, m) == Ok(r)
    ensures VacanciesAdded(plan, n + 1, b, r.books)
  {
    var kind := SlotWork(OrdinalOf(plan, n));
    ReplacedSlotRows(plan, n, c, m);
    assert ReplacedKinds(plan, n + 1) == ReplacedKinds(plan, n) + {kind};
    RowsAddedTrans(plan.handoff.batch, ReplacedKinds(plan, n), {kind}, b.work, b.schedulerWork,
                   m.books.work, m.books.schedulerWork, r.books.work, r.books.schedulerWork);
  }

  /** A replacement opens one row for each vacancy, all of different kinds. */
  lemma {:induction false} ReplacementRows(plan: Plan, selected: seq<Selection>, s: Tables)
    requires RunSteps(selected, SlotStep(plan), s).Ok?
    ensures VacanciesAdded(plan, |selected|, s.books, RunSteps(selected, SlotStep(plan), s).value.books)
    decreases |selected|
  {
    if selected == [] {
      assert ReplacedKinds(plan, 0) == {};
    } else {
      var n := |selected| - 1;
      ReplacementRows(plan, selected[..n], s);
      VacancyAdded(plan, n, selected[n], s.books, RunSteps(selected[..n], SlotStep(plan), s).value, RunSteps(selected, SlotStep(plan), s).value);
    }
  }

  /** The slots of the first n vacancies hold the selected tokens, in order, wherever the slot was free;
      no other slot was added, and no slot that was there has changed. */
  ghost predicate VacanciesWritten(plan: Plan, selected: seq<Selection>, n: nat, t: Tracking, after: Tracking)
    requires n <= |selected|
  {
    && |after.queue| == |t.queue| + n
    && (forall i: nat :: i < n ==> SlotWritten(plan.handoff, t, after, selected[i], OrdinalOf(plan, i), |t.queue| + i))
    && (forall key :: key in t.slots ==> key in after.slots && after.slots[key] == t.slots[key])
    && after.slots.Keys == t.slots.Keys + VacancyKeys(plan, n)
  }

  function VacancyKeys(plan: Plan, n: nat): set<SlotKey> {
    set i | 0 <= i < n :: SlotKey(plan.handoff.cycle, OrdinalOf(plan, i))
  }

  lemma VacancyWritten(plan: Plan, selected: seq<Selection>, n: nat, t: Tracking, m: Tracking, r: Tracking, job: nat)
    requires n < |selected| && VacanciesWritten(plan, selected, n, t, m)
    requires SlotKey(plan.handoff.cycle, OrdinalOf(plan, n)) !in VacancyKeys(plan, n)
    requires r == SlotTracking(plan.handoff, m, selected[n], OrdinalOf(plan, n), job)
    ensures VacanciesWritten(plan, selected, n + 1, t, r)
  {
    SlotTables(plan.handoff, m, selected[n], OrdinalOf(plan, n), job);
    SlotsStay(plan, selected, n, t, m, r);
    NewVacancy(plan, n, selected[n], t, m, job);
    KeysGrow(plan, n, t.slots.Keys, r.slots.Keys);
  }

  lemma NewVacancy(plan: Plan, n: nat, c: Selection, t: Tracking, m: Tracking, job: nat)
    requires |m.queue| == |t.queue| + n
    requires var key := SlotKey(plan.handoff.cycle, OrdinalOf(plan, n));
             (key in m.slots <==> key in t.slots) && (key in t.slots ==> m.slots[key] == t.slots[key])
    ensures SlotWritten(plan.handoff, t, SlotTracking(plan.handoff, m, c, OrdinalOf(plan, n), job), c, OrdinalOf(plan, n), |t.queue| + n)
  {
    NewSlotRow(plan.handoff, m, c, OrdinalOf(plan, n), job);
  }

  lemma KeysGrow(plan: Plan, n: nat, before: set<SlotKey>, after: set<SlotKey>)
    requires after == before + VacancyKeys(plan, n) + {SlotKey(plan.handoff.cycle, OrdinalOf(plan, n))}
    ensures after == before + VacancyKeys(plan, n + 1)
  {
    assert VacancyKeys(plan, n + 1) == VacancyKeys(plan, n) + {SlotKey(plan.handoff.cycle, OrdinalOf(plan, n))};
  }

  lemma SlotsStay(plan: Plan, selected: seq<Selection>, n: nat, t: Tracking, m: Tracking, r: Tracking)
    requires n <= |selected| && VacanciesWritten(plan, selected, n, t, m) && m.queue <= r.queue
    requires forall key :: key in m.slots ==> key in r.slots && r.slots[key] == m.slots[key]
    ensures forall i: nat :: i < n ==> SlotWritten(plan.handoff, t, r, selected[i], OrdinalOf(plan, i), |t.queue| + i)
  {
    forall i: nat | i < n ensures SlotWritten(plan.handoff, t, r, selected[i], OrdinalOf(plan, i), |t.queue| + i) {
      SlotStays(plan.handoff, t, m, r, selected[i], OrdinalOf(plan, i), |t.queue| + i);
    }
  }

  /** A vacancy that is replaced now was not replaced before. */
  lemma VacancyIsNew(plan: Plan, n: nat)
    requires SlotWork(OrdinalOf(plan, n)) !in ReplacedKinds(plan, n)
    ensures SlotKey(plan.handoff.cycle, OrdinalOf(plan, n)) !in VacancyKeys(plan, n)
  {
    forall i: nat | i < n ensures OrdinalOf(plan, i) != OrdinalOf(plan, n) {
      assert SlotWork(OrdinalOf(plan, i)) in ReplacedKinds(plan, n);
    }
  }

  lemma {:induction false} ReplacementSlots(plan: Plan, selected: seq<Selection>, s: Tables)
    requires RunSteps(selected, SlotStep(plan), s).Ok?
    ensures VacanciesWritten(plan, selected, |selected|, s.tracking, RunSteps(selected, SlotStep(plan), s).value.tracking)
    decreases |selected|
  {
    if selected == [] {
      assert VacancyKeys(plan, 0) == {};
    } else {
      var n := |selected| - 1;
      var m, r := RunSteps(selected[..n], SlotStep(plan), s).value, RunSteps(selected, SlotStep(plan), s).value;
      ReplacementSlots(plan, selected[..n], s);
      ReplacementRows(plan, selected[..n], s);
      VacancyReplaced(plan, selected, n, s.tracking, m, r);
    }
  }

  lemma VacancyReplaced(plan: Plan, selected: seq<Selection>, n: nat, t: Tracking, m: Tables, r: Tables)
    requires n < |selected| && VacanciesWritten(plan, selected[..n], n, t, m.tracking) && ReplacedEnded(plan, n, m.books.work)
    requires ReplacedSlot(plan, n, selected[n], m) == Ok(r)
    ensures VacanciesWritten(plan, selected, n + 1, t, r.tracking)
  {
    ReplacedSlotRows(plan, n, selected[n], m);
    VacancyIsNew(plan, n);
    assert forall i: nat :: i < n ==> selected[..n][i] == selected[i];
    VacancyWritten(plan, selected, n, t, m.tracking, r.tracking,
                   |BookOpened(m.books, WorkId(SlotWork(OrdinalOf(plan, n)), plan.handoff.batch)).jobs|);
  }

  /** An initial handoff either completes, fails the batch, or undoes the cycle. */
  function InitialEnd(fault: Option<Fault>): Result<CycleEnd, Fault> {
    if fault.None? then Ok(Completed)
    else if fault.value.Combined? && fault.value.code in INITIAL_FAILURES then Ok(TerminalFailure(fault.value.code))
    else Err(fault.value)
  }

  /** Which failures of an initial handoff are committed as a failed batch: exactly these thirteen codes. */
  lemma InitialEndExactly(fault: Option<Fault>)
    ensures InitialEnd(fault) == Ok(Completed) <==> fault == None
    ensures forall code :: InitialEnd(fault) == Ok(TerminalFailure(code))
              <==> && fault == Some(Combined(code))
                   && code in {"HANDOFF_PREFLIGHT_FAILED", "HANDOFF_BEFORE_FIRST", "HANDOFF_DURING_SECOND", "FIRST_15M_JOB_FAILED",
                               "DUPLICATE_ACTIVE_TRACKING", "COOLDOWN_REOPEN_REQUIRED", "TERMINAL_TRACKING_STATE",
                               "UNSUPPORTED_TRACKING_QUEUE_STATE", "CONFLICTING_SLOT", "HEALTHY_SLOT_MUTATION", "HANDOFF_CEILING",
                               "FORBIDDEN_WINDOW_ACTIVATION", "INITIAL_HANDOFF_INCOMPLETE"}
    ensures InitialEnd(fault).Err? ==> fault == Some(InitialEnd(fault).error)
  {
  }

  function ActivationEnd(plan: Plan, t: Tracking, b: Books): Result<CycleEnd, Fault> {
    if plan.handoff.mode == Initial then InitialEnd(HandoffFault(InitialPlan(plan), t, b.work, b.jobs, b.schedulerWork, 0))
    else
      var r := Replacement(plan, Tables(t, b, 0));
      if r.Err? then Err(r.error) else Ok(Completed)
  }

  /** Both slots: the tracking tables, the two handoff rows, and the first-window jobs as the last two. */
  ghost predicate InitialHandedOff(h: HandoffPlan, t: Tracking, after: Database) {
    && TrackingHandedOff(h, t, after.tracking, |after.jobs| - 2)
    && BothEnded(h, after.work, WorkSucceeded, "HANDOFF_COMPLETE")
    && after.jobs[|after.jobs| - 2] == FirstWindowJob(h.selected[0], |t.queue|)
    && after.jobs[|after.jobs| - 1] == FirstWindowJob(h.selected[1], |t.queue| + 1)
  }

  /** Every selected token was queued in order, and holds its vacancy wherever that slot was free. */
  ghost predicate Replaced(plan: Plan, t: Tracking, after: Tracking) {
    && after.queue == t.queue + Map(plan.handoff.selected, QueueRowOf)
    && VacanciesWritten(plan, plan.handoff.selected, |plan.handoff.selected|, t, after)
  }

  /** What an activation leaves, compared with the tracking tables and batches it found. */
  ghost predicate Activated(plan: Plan, end: CycleEnd, t: Tracking, batches: map<string, BatchRow>, after: Database, handoffs: nat) {
    match end
    case Completed =>
      && after.batches == batches && handoffs == |plan.handoff.selected| <= HANDOFF_CEILING
      && if plan.handoff.mode == Initial then InitialHandedOff(InitialPlan(plan), t, after)
         else Replaced(plan, t, after.tracking)
    case TerminalFailure(cause) =>
      && plan.handoff.mode == Initial && after.tracking == t && handoffs == 0
      && OpenRows(after.work, plan.handoff.batch) == {} && after.batches == BatchFailed(batches, plan.handoff.batch, cause)
  }

  /** One activation as a step of the batch: what it keeps, what it leaves, and the rows it adds. */
  ghost predicate ActivationLeaves(
    plan: Plan, end: CycleEnd, t: Tracking, batches: map<string, BatchRow>, b: Books, after: Database, charge: nat, handoffs: nat)
  {
    && Progressed(plan.handoff.batch, b.work, b.jobs, after.work, after.jobs)
    && Activated(plan, end, t, batches, after, handoffs)
    && RowsAdded(plan.handoff.batch, HandoffKinds(plan, t, b.schedulerWork), b.work, b.schedulerWork, after.work, charge)
    && (end.Completed? ==> charge == b.schedulerWork + |plan.handoff.selected|)
  }

  lemma ReplacementLeaves(plan: Plan, start: Tables, batches: map<string, BatchRow>, after: Tables)
    requires plan.handoff.mode != Initial && start.handoffs == 0 && Replacement(plan, start) == Ok(after)
    ensures ActivationLeaves(plan, Completed, start.tracking, batches, start.books,
                             Database(after.books.work, after.books.jobs, batches, after.tracking), after.books.schedulerWork, after.handoffs)
  {
    ReplacementRows(plan, plan.handoff.selected, start.(tracking := WithSelectionBatch(plan.handoff, start.tracking)));
    ReplacementKeeps(plan, start, after);
  }

  lemma ReplacementKeeps(plan: Plan, start: Tables, after: Tables)
    requires start.handoffs == 0 && Replacement(plan, start) == Ok(after)
    ensures Progressed(plan.handoff.batch, start.books.work, start.books.jobs, after.books.work, after.books.jobs)
    ensures Replaced(plan, start.tracking, after.tracking)
    ensures after.handoffs == |plan.handoff.selected| <= HANDOFF_CEILING
    ensures after.books.schedulerWork == start.books.schedulerWork + |plan.handoff.selected|
  {
    var s := start.(tracking := WithSelectionBatch(plan.handoff, start.tracking));
    ReplacementProgress(plan, plan.handoff.selected, s);
    ReplacementSlots(plan, plan.handoff.selected, s);
    SlotsWritten(plan, plan.handoff.selected, start.tracking, after.tracking);
  }

  /** The selection batch leaves slots and queue alone. */
  lemma SlotsWritten(plan: Plan, selected: seq<Selection>, t: Tracking, after: Tracking)
    requires VacanciesWritten(plan, selected, |selected|, WithSelectionBatch(plan.handoff, t), after)
    ensures VacanciesWritten(plan, selected, |selected|, t, after)
  {
    var s := WithSelectionBatch(plan.handoff, t);
    forall i: nat | i < |selected| ensures SlotWritten(plan.handoff, t, after, selected[i], OrdinalOf(plan, i), |t.queue| + i) {
      assert SlotWritten(plan.handoff, s, after, selected[i], OrdinalOf(plan, i), |s.queue| + i);
    }
  }

  lemma FailedLeaves(plan: Plan, cause: string, t: Tracking, batches: map<string, BatchRow>, b: Books, failed: Books, after: Database)
    requires plan.handoff.mode == Initial && after.tracking == t && after.batches == BatchFailed(batches, plan.handoff.batch, cause)
    requires Progressed(plan.handoff.batch, b.work, b.jobs, failed.work, failed.jobs)
    requires RowsAdded(plan.handoff.batch, HandoffKinds(plan, t, b.schedulerWork), b.work, b.schedulerWork, failed.work, failed.schedulerWork)
    requires Progressed(plan.handoff.batch, failed.work, failed.jobs, after.work, after.jobs)
    requires after.work == Abandoned(failed.work, plan.handoff.batch, cause) && OpenRows(after.work, plan.handoff.batch) == {}
    ensures ActivationLeaves(plan, TerminalFailure(cause), t, batches, b, after, failed.schedulerWork, 0)
  {
    ProgressedTrans(plan.handoff.batch, b.work, b.jobs, failed.work, failed.jobs, after.work, after.jobs);
    SameRows(plan.handoff.batch, HandoffKinds(plan, t, b.schedulerWork), b.work, b.schedulerWork, failed.work, after.work, failed.schedulerWork);
  }

  lemma HandoffRowsWereOpen(batch: string, work: WorkTable, jobs: JobTable, schedulerWork: nat)
    requires OpeningFault(batch, work, jobs, schedulerWork).None?
    ensures forall id :: id in HandoffIds(batch) && id in work ==> work[id].state == WorkRunning
  {
  }

  /** A handoff that ended both of its rows is one more step of the batch. */
  lemma HandoffProgress(h: HandoffPlan, work: WorkTable, jobs: JobTable, after: WorkTable, jobsAfter: JobTable, windows: nat, state: WorkState, cause: string)
    requires forall id :: id in HandoffIds(h.batch) && id in work ==> work[id].state == WorkRunning
    requires OnlyHandoffWork(h, work, jobs, after, jobsAfter, windows) && BothEnded(h, after, state, cause) && !Open(state)
    ensures OpenIds(after) <= OpenIds(work) && WorkKept(h.batch, work, after) && JobsKept(jobs, jobsAfter)
  {
  }

  lemma TurnedAwayOrOpened(h: HandoffPlan, t: Tracking, work: WorkTable, jobs: JobTable, schedulerWork: nat, handoffs: nat)
    requires !TurnedAway(h, t, schedulerWork, handoffs)
    ensures var fault := HandoffFault(h, t, work, jobs, schedulerWork, handoffs);
            (fault.None? || fault.value.Combined?) ==> OpeningFault(h.batch, work, jobs, schedulerWork).None?
  {
  }

  lemma InitialRows(h: HandoffPlan, w: WorkTable, j: JobTable, charge: nat, after: WorkTable, jobsAfter: JobTable, windows: nat)
    requires OnlyHandoffWork(h, w, j, after, jobsAfter, windows)
    ensures RowsAdded(h.batch, {HandoffSlot1, HandoffSlot2}, w, charge, after, charge + 2)
  {
    assert forall id :: id in HandoffIds(h.batch) <==> id.batch == h.batch && id.kind in {HandoffSlot1, HandoffSlot2};
    assert |{HandoffSlot1, HandoffSlot2}| == 2;
  }

  lemma CompletedHandoff(h: HandoffPlan, t: Tracking, work: WorkTable, jobs: JobTable, schedulerWork: nat, after: Database)
    requires HandoffFault(h, t, work, jobs, schedulerWork, 0).None?
    requires BothHandedOff(h, t, work, jobs, after.tracking, after.work, after.jobs)
    ensures RowsKept(h.batch, work, jobs, after.work, after.jobs) && InitialHandedOff(h, t, after)
    ensures RowsAdded(h.batch, {HandoffSlot1, HandoffSlot2}, work, schedulerWork, after.work, schedulerWork + 2)
  {
    InitialRows(h, work, jobs, schedulerWork, after.work, after.jobs, 2);
    HandoffRowsWereOpen(h.batch, work, jobs, schedulerWork);
    HandoffProgress(h, work, jobs, after.work, after.jobs, 2, WorkSucceeded, "HANDOFF_COMPLETE");
  }

  lemma FailedHandoff(h: HandoffPlan, t: Tracking, work: WorkTable, jobs: JobTable, schedulerWork: nat, after: WorkTable, jobsAfter: JobTable, cause: string)
    requires !TurnedAway(h, t, schedulerWork, 0)
    requires var fault := HandoffFault(h, t, work, jobs, schedulerWork, 0); fault.Some? && fault.value.Combined?
    requires NeitherHandedOff(h, work, jobs, after, jobsAfter, cause)
    ensures RowsKept(h.batch, work, jobs, after, jobsAfter)
    ensures RowsAdded(h.batch, {HandoffSlot1, HandoffSlot2}, work, schedulerWork, after, schedulerWork + 2)
  {
    InitialRows(h, work, jobs, schedulerWork, after, jobsAfter, 0);
    TurnedAwayOrOpened(h, t, work, jobs, schedulerWork, 0);
    HandoffRowsWereOpen(h.batch, work, jobs, schedulerWork);
    HandoffProgress(h, work, jobs, after, jobsAfter, 0, WorkFailed, cause);
  }

  lemma HandoffLeft(
    h: HandoffPlan, t: Tracking, work: WorkTable, jobs: JobTable, charge: nat, f: Option<Fault>, after: Database, chargeAfter: nat)
    requires f == HandoffFault(h, t, work, jobs, charge, 0)
    requires f.None? ==> chargeAfter == charge + 2 && BothHandedOff(h, t, work, jobs, after.tracking, after.work, after.jobs)
    requires TurnedAway(h, t, charge, 0) ==> after.work == work && after.jobs == jobs && chargeAfter == charge
    requires !TurnedAway(h, t, charge, 0) && f.Some? && f.value.Combined? ==>
               chargeAfter == charge + 2 && exists cause :: NeitherHandedOff(h, work, jobs, after.work, after.jobs, cause)
    ensures f.None? || f.value.Combined? ==>
              && RowsKept(h.batch, work, jobs, after.work, after.jobs)
              && RowsAdded(h.batch, InitialKinds(h, t, charge), work, charge, after.work, chargeAfter)
    ensures f.None? ==> InitialHandedOff(h, t, after)
  {
    if f.None? {
      CompletedHandoff(h, t, work, jobs, charge, after);
    } else if f.value.Combined? && !TurnedAway(h, t, charge, 0) {
      var cause :| NeitherHandedOff(h, work, jobs, after.work, after.jobs, cause);
      FailedHandoff(h, t, work, jobs, charge, after.work, after.jobs, cause);
    }
  }

  /** The initial handoff, as one step of the batch, whatever its outcome. */
  method HandOffInitial(conn: Connection, usage: Usage, h: HandoffPlan) returns (f: Option<Fault>)
    requires usage.handoffs == 0
    modifies conn`tracking, conn.ledger, usage
    ensures f == HandoffFault(h, old(conn.tracking), old(conn.ledger.work), old(conn.ledger.jobs), old(usage.schedulerWork), 0)
    ensures f.None? || f.value.Combined? ==>
              Progressed(h.batch, old(conn.ledger.work), old(conn.ledger.jobs), conn.ledger.work, conn.ledger.jobs)
    ensures f.None? ==> InitialHandedOff(h, old(conn.tracking), DatabaseOf(conn)) && usage.handoffs == 2
    ensures f.None? ==> usage.schedulerWork == old(usage.schedulerWork) + 2
    ensures f.None? || f.value.Combined? ==>
              RowsAdded(h.batch, InitialKinds(h, old(conn.tracking), old(usage.schedulerWork)),
                        old(conn.ledger.work), old(usage.schedulerWork), conn.ledger.work, usage.schedulerWork)
    ensures f.Some? ==> conn.tracking == old(conn.tracking) && usage.handoffs == 0
    ensures old(usage.schedulerWork) <= SCHEDULER_WORK_CEILING ==> usage.schedulerWork <= SCHEDULER_WORK_CEILING
  {
    ghost var work, jobs, t, charged := conn.ledger.work, conn.ledger.jobs, conn.tracking, usage.schedulerWork;
    f := AtomicInitialTwoSlotHandoff(conn, usage, h);
    HandoffLeft(h, t, work, jobs, charged, f, DatabaseOf(conn), usage.schedulerWork);
  }

  /** Initial activation: both slots, or a failed batch that keeps its discovery facts. */
  method ActivateInitial(conn: Connection, usage: Usage, plan: Plan) returns (r: Result<CycleEnd, Fault>)
    requires usage.handoffs == 0 && plan.handoff.mode == Initial
    modifies conn, conn.ledger, usage
    ensures var end := ActivationEnd(plan, old(conn.tracking), old(Books(conn.ledger.work, conn.ledger.jobs, usage.schedulerWork)));
            (r.Ok? || old(Parity(conn.ledger.work, conn.ledger.jobs))) ==> r == end
    ensures r.Ok? ==> ActivationLeaves(plan, r.value, old(conn.tracking), old(conn.batches),
                                       old(Books(conn.ledger.work, conn.ledger.jobs, usage.schedulerWork)),
                                       DatabaseOf(conn), usage.schedulerWork, usage.handoffs)
    ensures old(usage.schedulerWork) <= SCHEDULER_WORK_CEILING ==> usage.schedulerWork <= SCHEDULER_WORK_CEILING
  {
    ghost var t, batches, b := conn.tracking, conn.batches, Books(conn.ledger.work, conn.ledger.jobs, usage.schedulerWork);
    var fault := HandOffInitial(conn, usage, InitialPlan(plan));
    if fault.None? {
      return Ok(Completed);
    }
    if fault.value.Combined? && fault.value.code in INITIAL_FAILURES {
      ghost var failed := Books(conn.ledger.work, conn.ledger.jobs, usage.schedulerWork);
      var marked := MarkBatchFailed(conn, plan.handoff.batch, fault.value.code);
      if marked.Some? {
        return Err(marked.value);
      }
      FailedLeaves(plan, fault.value.code, t, batches, b, failed, DatabaseOf(conn));
      return Ok(TerminalFailure(fault.value.code));
    }
    return Err(fault.value);
  }

  method Activate(conn: Connection, usage: Usage, plan: Plan) returns (r: Result<CycleEnd, Fault>)
    requires usage.handoffs == 0
    modifies conn, conn.ledger, usage
    ensures var end := ActivationEnd(plan, old(conn.tracking), old(Books(conn.ledger.work, conn.ledger.jobs, usage.schedulerWork)));
            (r.Ok? || old(Parity(conn.ledger.work, conn.ledger.jobs))) ==> r == end
    ensures r.Ok? ==> ActivationLeaves(plan, r.value, old(conn.tracking), old(conn.batches),
                                       old(Books(conn.ledger.work, conn.ledger.jobs, usage.schedulerWork)),
                                       DatabaseOf(conn), usage.schedulerWork, usage.handoffs)
    ensures old(usage.schedulerWork) <= SCHEDULER_WORK_CEILING ==> usage.schedulerWork <= SCHEDULER_WORK_CEILING
  {
    if plan.handoff.mode == Initial {
      r := ActivateInitial(conn, usage, plan);
      return;
    }
    ghost var start := TablesOf(conn, usage);
    var fault := ReplaceSlots(conn, usage, plan);
    if fault.Some? {
      return Err(fault.value);
    }
    ReplacementLeaves(plan, start, conn.batches, TablesOf(conn, usage));
    return Ok(Completed);
  }

  // ---- The cycle ----

  function WithBatch(plan: Plan, batches: map<string, BatchRow>): map<string, BatchRow> {
    if plan.handoff.batch in batches then batches else batches[plan.handoff.batch := BatchRow(plan.content, None)]
  }

  method InsertBatch(conn: Connection, plan: Plan) returns (f: Option<Fault>)
    modifies conn`batches
    ensures f == if BatchConflict(plan, old(conn.batches)) then Some(Persistence) else None
    ensures conn.batches == if f.None? then WithBatch(plan, old(conn.batches)) else old(conn.batches)
  {
    var batch := plan.handoff.batch;
    if batch in conn.batches {
      return if conn.batches[batch].content == plan.content then None else Some(Persistence);
    }
    conn.batches := conn.batches[batch := BatchRow(plan.content, None)];
    return None;
  }

  predicate BatchConflict(plan: Plan, batches: map<string, BatchRow>) {
    plan.handoff.batch in batches && batches[plan.handoff.batch].content != plan.content
  }

  /** A batch is inserted once: an identical repeat changes nothing, and different content is a conflict. */
  lemma InsertedOnce(plan: Plan, batches: map<string, BatchRow>)
    ensures var batch, after := plan.handoff.batch, WithBatch(plan, batches);
            && batch in after && after.Keys == batches.Keys + {batch} && (forall other :: other in batches ==> after[other] == batches[other])
            && (batch !in batches ==> after[batch] == BatchRow(plan.content, None) && !BatchConflict(plan, batches))
            && (batch in batches ==> (BatchConflict(plan, batches) <==> batches[batch].content != plan.content))
  {
  }

  predicate Shortfall(plan: Plan) {
    plan.handoff.mode == Initial && |plan.handoff.selected| < 2
  }

  function SelectionId(plan: Plan): WorkId {
    WorkId(UniformSelection, plan.handoff.batch)
  }

  /** The books when the selection row may be opened: the batch is there and the intake is done. */
  function IntakeEnd(plan: Plan, db: Database): Result<Books, Fault> {
    var intake := IntakeBooks(plan, STAGES, Books(db.work, db.jobs, 0));
    if plan.preamble.Some? then Err(plan.preamble.value)
    else if BatchConflict(plan, db.batches) then Err(Persistence)
    else if intake.Err? then intake
    else
      var fault := OpenFault(intake.value.work, intake.value.jobs, intake.value.schedulerWork, SelectionId(plan));
      if fault.Some? then Err(fault.value) else intake
  }

  /** What stops a cycle before its selection: its preamble, a batch of that name with other content, the first
      stage that fails, or a selection row that cannot be opened. */
  lemma IntakeEndExactly(plan: Plan, db: Database)
    ensures var intake, r := IntakeBooks(plan, STAGES, Books(db.work, db.jobs, 0)), IntakeEnd(plan, db);
            IsFirst([plan.preamble,
                     When(plan.handoff.batch in db.batches && db.batches[plan.handoff.batch].content != plan.content, Persistence),
                     if intake.Err? then Some(intake.error) else None,
                     if intake.Ok? then OpenFault(intake.value.work, intake.value.jobs, intake.value.schedulerWork, SelectionId(plan)) else None],
                    if r.Err? then Some(r.error) else None)
    ensures IntakeEnd(plan, db).Ok? ==> IntakeEnd(plan, db) == IntakeBooks(plan, STAGES, Books(db.work, db.jobs, 0))
  {
    var intake, r := IntakeBooks(plan, STAGES, Books(db.work, db.jobs, 0)), IntakeEnd(plan, db);
    FourChecks([plan.preamble,
                When(plan.handoff.batch in db.batches && db.batches[plan.handoff.batch].content != plan.content, Persistence),
                if intake.Err? then Some(intake.error) else None,
                if intake.Ok? then OpenFault(intake.value.work, intake.value.jobs, intake.value.schedulerWork, SelectionId(plan)) else None],
               if r.Err? then Some(r.error) else None);
  }

  function SelectionEnded(plan: Plan, b: Books): Books {
    BookEnded(BookOpened(b, SelectionId(plan)), SelectionId(plan), WorkSucceeded, "SELECTION_COMPLETE")
  }

  function MintOf(c: Selection): string {
    c.mint
  }

  function CanonicalOf(plan: Plan, schedulerWork: nat): Canonical {
    var selected := plan.handoff.selected;
    Canonical(plan.handoff.batch, multiset(Map(selected, MintOf)), plan.facts, schedulerWork, |selected|)
  }

  /** How a cycle ends, before its reports are written. */
  function BeforeReports(plan: Plan, db: Database): Result<CycleEnd, Fault> {
    var intake := IntakeEnd(plan, db);
    if intake.Err? then Err(intake.error)
    else if Shortfall(plan) then Ok(TerminalFailure(plan.shortfallCause))
    else ActivationEnd(plan, db.tracking, SelectionEnded(plan, intake.value))
  }

  /** How a cycle ends, decided by the plan, the database it finds and the executor's last result. */
  function CycleResult(plan: Plan, db: Database, last: Option<Canonical>): Result<CycleEnd, Fault> {
    var end := BeforeReports(plan, db);
    if end.Err? then end
    else if plan.reportFault.Some? then Err(plan.reportFault.value)
    else if end.value.Completed? && last.Some?
            && last.value != CanonicalOf(plan, IntakeEnd(plan, db).value.schedulerWork + 1 + |plan.handoff.selected|)
      then Err(Combined("CONFLICTING_REPLAY"))
    else end
  }

  /** What the reports and the remembered result make of a cycle that got that far: an error stays, a report
      that raises undoes the cycle, and a completed cycle conflicts exactly with a different remembered one. */
  lemma CycleResultExactly(plan: Plan, db: Database, last: Option<Canonical>)
    ensures var end, r := BeforeReports(plan, db), CycleResult(plan, db, last);
            && (end.Err? ==> r == end)
            && (end.Ok? && plan.reportFault.Some? ==> r == Err(plan.reportFault.value))
            && (end.Ok? && plan.reportFault.None? && (!end.value.Completed? || last.None?) ==> r == end)
            && (end == Ok(Completed) && plan.reportFault.None? && last.Some? ==>
                  var charge := IntakeEnd(plan, db).value.schedulerWork + 1 + |plan.handoff.selected|;
                  var own := Canonical(plan.handoff.batch, multiset(Map(plan.handoff.selected, MintOf)), plan.facts, charge, |plan.handoff.selected|);
                  r == if last.value == own then Ok(Completed) else Err(Combined("CONFLICTING_REPLAY")))
  {
  }

  ghost predicate SelectionRecorded(plan: Plan, work: WorkTable) {
    var id := SelectionId(plan);
    && id in work
    && work[id].state == (if Shortfall(plan) then WorkFailed else WorkSucceeded)
    && work[id].cause == Some(if Shortfall(plan) then plan.shortfallCause else "SELECTION_COMPLETE")
  }

  /** What a cycle may hand to its caller for commit: the row of every stage that ran says how it
      ended, so does the selection row, and the activation is complete or the batch has failed. */
  ghost predicate CycleDone(plan: Plan, end: CycleEnd, before: Database, after: Database, handoffs: nat) {
    && Progressed(plan.handoff.batch, before.work, before.jobs, after.work, after.jobs)
    && IntakeRecorded(plan, STAGES, after.work) && SelectionRecorded(plan, after.work)
    && Activated(plan, end, before.tracking, WithBatch(plan, before.batches), after, handoffs)
  }

  /** The books of a shortfall: the selection row was opened and failed, and no row of the batch stays open. */
  lemma ShortfallProgress(plan: Plan, b: Books, after: JobTable)
    requires OpenFault(b.work, b.jobs, b.schedulerWork, SelectionId(plan)).None? && Shortfall(plan)
    requires JobsKept(BookOpened(b, SelectionId(plan)).jobs, after)
    ensures var cause := plan.shortfallCause;
            var work := OpenRowsFailed(Ended(BookOpened(b, SelectionId(plan)).work, SelectionId(plan), WorkFailed, cause), plan.handoff.batch, cause);
            && RowsKept(plan.handoff.batch, b.work, b.jobs, work, after)
            && SelectionRecorded(plan, work) && OpenRows(work, plan.handoff.batch) == {}
  {
    var id, cause := SelectionId(plan), plan.shortfallCause;
    var failed := Ended(BookOpened(b, id).work, id, WorkFailed, cause);
    NothingOpen(failed, plan.handoff.batch, cause);
    assert WorkKept(plan.handoff.batch, b.work, failed);
    WorkKeptTrans(plan.handoff.batch, b.work, failed, OpenRowsFailed(failed, plan.handoff.batch, cause));
  }

  lemma OpenedParity(b: Books, id: WorkId)
    requires OpenFault(b.work, b.jobs, b.schedulerWork, id).None? && Parity(b.work, b.jobs)
    ensures var open := BookOpened(b, id); Parity(open.work, open.jobs)
  {
    OpenedKeepsParity(b.work, b.jobs, BookOpened(b, id).jobs, id, NewRow(b.jobs, id));
  }

  lemma SelectionRows(plan: Plan, b: Books)
    ensures var open, ended := BookOpened(b, SelectionId(plan)), SelectionEnded(plan, b);
            && RowsAdded(plan.handoff.batch, {UniformSelection}, b.work, b.schedulerWork, open.work, open.schedulerWork)
            && RowsAdded(plan.handoff.batch, {UniformSelection}, b.work, b.schedulerWork, ended.work, ended.schedulerWork)
  {
  }

  /** The rows that follow the intake: the selection row, and those of the handoffs. */
  function ActivationKinds(plan: Plan, t: Tracking, charge: nat): set<WorkType> {
    {UniformSelection} + if Shortfall(plan) then {} else HandoffKinds(plan, t, charge + 1)
  }

  /** Selection and activation as one step of the batch. */
  ghost predicate SelectionLeaves(
    plan: Plan, end: CycleEnd, t: Tracking, batches: map<string, BatchRow>, b: Books, after: Database, charge: nat, handoffs: nat)
  {
    && Progressed(plan.handoff.batch, b.work, b.jobs, after.work, after.jobs) && SelectionRecorded(plan, after.work)
    && Activated(plan, end, t, batches, after, handoffs)
    && RowsAdded(plan.handoff.batch, ActivationKinds(plan, t, b.schedulerWork), b.work, b.schedulerWork, after.work, charge)
    && (end.Completed? ==> charge == b.schedulerWork + 1 + |plan.handoff.selected|)
  }

  lemma ShortRows(plan: Plan, t: Tracking, b: Books, after: WorkTable)
    requires Shortfall(plan) && after.Keys == BookOpened(b, SelectionId(plan)).work.Keys
    ensures RowsAdded(plan.handoff.batch, ActivationKinds(plan, t, b.schedulerWork), b.work, b.schedulerWork, after, b.schedulerWork + 1)
  {
    SelectionRows(plan, b);
    SameRows(plan.handoff.batch, {UniformSelection}, b.work, b.schedulerWork, BookOpened(b, SelectionId(plan)).work, after, b.schedulerWork + 1);
    assert ActivationKinds(plan, t, b.schedulerWork) == {UniformSelection};
  }

  lemma SelectedRows(plan: Plan, t: Tracking, b: Books, after: WorkTable, charge: nat)
    requires !Shortfall(plan)
    requires RowsAdded(plan.handoff.batch, HandoffKinds(plan, t, b.schedulerWork + 1), SelectionEnded(plan, b).work, b.schedulerWork + 1, after, charge)
    ensures RowsAdded(plan.handoff.batch, ActivationKinds(plan, t, b.schedulerWork), b.work, b.schedulerWork, after, charge)
  {
    SelectionRows(plan, b);
    RowsAddedTrans(plan.handoff.batch, {UniformSelection}, HandoffKinds(plan, t, b.schedulerWork + 1), b.work, b.schedulerWork,
                   SelectionEnded(plan, b).work, b.schedulerWork + 1, after, charge);
  }

  /** Too few tokens for an initial activation: the batch fails with its discovery facts kept. */
  method EndShort(conn: Connection, usage: Usage, plan: Plan, ghost b: Books) returns (f: Option<Fault>)
    requires usage.handoffs == 0 && Shortfall(plan) && OpenFault(b.work, b.jobs, b.schedulerWork, SelectionId(plan)).None?
    requires Books(conn.ledger.work, conn.ledger.jobs, usage.schedulerWork) == BookOpened(b, SelectionId(plan))
    modifies conn`batches, conn.ledger
    ensures Parity(b.work, b.jobs) ==> f.None?
    ensures f.None? ==> SelectionLeaves(plan, TerminalFailure(plan.shortfallCause), conn.tracking, old(conn.batches), b,
                                        DatabaseOf(conn), usage.schedulerWork, usage.handoffs)
  {
    if Parity(b.work, b.jobs) {
      OpenedParity(b, SelectionId(plan));
    }
    f := FailShortfall(conn, plan, SelectionId(plan));
    if f.None? {
      ShortfallProgress(plan, b, conn.ledger.jobs);
      ShortRows(plan, conn.tracking, b, conn.ledger.work);
    }
  }

  method EndSelection(conn: Connection, usage: Usage, plan: Plan, ghost b: Books)
    requires Books(conn.ledger.work, conn.ledger.jobs, usage.schedulerWork) == BookOpened(b, SelectionId(plan))
    modifies conn.ledger
    ensures Books(conn.ledger.work, conn.ledger.jobs, usage.schedulerWork) == SelectionEnded(plan, b)
  {
    TerminalizeWork(conn, SelectionId(plan), WorkSucceeded, "SELECTION_COMPLETE");
  }

  /** Enough tokens: the selection row succeeds and the activation decides. */
  method EndSelected(conn: Connection, usage: Usage, plan: Plan, ghost b: Books) returns (r: Result<CycleEnd, Fault>)
    requires usage.handoffs == 0 && !Shortfall(plan) && OpenFault(b.work, b.jobs, b.schedulerWork, SelectionId(plan)).None?
    requires Books(conn.ledger.work, conn.ledger.jobs, usage.schedulerWork) == BookOpened(b, SelectionId(plan))
    modifies conn, conn.ledger, usage
    ensures (r.Ok? || Parity(b.work, b.jobs)) ==> r == ActivationEnd(plan, old(conn.tracking), SelectionEnded(plan, b))
    ensures r.Ok? ==> SelectionLeaves(plan, r.value, old(conn.tracking), old(conn.batches), b,
                                      DatabaseOf(conn), usage.schedulerWork, usage.handoffs)
    ensures old(usage.schedulerWork) <= SCHEDULER_WORK_CEILING ==> usage.schedulerWork <= SCHEDULER_WORK_CEILING
  {
    ghost var t, batches := conn.tracking, conn.batches;
    EndSelection(conn, usage, plan, b);
    SelectionKeepsParity(plan, b);
    r := Activate(conn, usage, plan);
    if r.Ok? {
      SelectedEnds(plan, r.value, t, batches, b, SelectionEnded(plan, b), DatabaseOf(conn), usage.schedulerWork, usage.handoffs);
    }
  }

  lemma SelectionKeepsParity(plan: Plan, b: Books)
    requires OpenFault(b.work, b.jobs, b.schedulerWork, SelectionId(plan)).None?
    ensures Parity(b.work, b.jobs) ==> Parity(SelectionEnded(plan, b).work, SelectionEnded(plan, b).jobs)
  {
    StageProgress(b, SelectionId(plan), WorkSucceeded, "SELECTION_COMPLETE");
  }

  /** The selection row that succeeded, and then the activation. */
  lemma SelectedEnds(
    plan: Plan, end: CycleEnd, t: Tracking, batches: map<string, BatchRow>, b: Books, ended: Books, after: Database, charge: nat, handoffs: nat)
    requires !Shortfall(plan) && OpenFault(b.work, b.jobs, b.schedulerWork, SelectionId(plan)).None? && ended == SelectionEnded(plan, b)
    requires ActivationLeaves(plan, end, t, batches, ended, after, charge, handoffs)
    ensures SelectionLeaves(plan, end, t, batches, b, after, charge, handoffs)
  {
    SelectionProgress(plan, b, ended, after.work, after.jobs);
    SelectedRows(plan, t, b, after.work, charge);
  }

  lemma SelectionProgress(plan: Plan, b: Books, ended: Books, after: WorkTable, jobsAfter: JobTable)
    requires !Shortfall(plan) && OpenFault(b.work, b.jobs, b.schedulerWork, SelectionId(plan)).None? && ended == SelectionEnded(plan, b)
    requires Progressed(plan.handoff.batch, ended.work, ended.jobs, after, jobsAfter)
    ensures Progressed(plan.handoff.batch, b.work, b.jobs, after, jobsAfter) && SelectionRecorded(plan, after)
  {
    StageProgress(b, SelectionId(plan), WorkSucceeded, "SELECTION_COMPLETE");
    ProgressedTrans(plan.handoff.batch, b.work, b.jobs, ended.work, ended.jobs, after, jobsAfter);
  }

  /** The batch row, the intake, and the opened selection row. */
  method OpenSelection(conn: Connection, usage: Usage, plan: Plan) returns (f: Option<Fault>)
    requires usage.schedulerWork == 0
    modifies conn`batches, conn.ledger, usage`schedulerWork
    ensures var r := IntakeEnd(plan, old(DatabaseOf(conn)));
            if r.Err? then f == Some(r.error)
            else
              && f.None?
              && Books(conn.ledger.work, conn.ledger.jobs, usage.schedulerWork) == BookOpened(r.value, SelectionId(plan))
              && conn.batches == WithBatch(plan, old(conn.batches))
    ensures var r := IntakeEnd(plan, old(DatabaseOf(conn)));
            r.Ok? ==> OpenFault(r.value.work, r.value.jobs, r.value.schedulerWork, SelectionId(plan)).None?
    ensures var r := IntakeEnd(plan, old(DatabaseOf(conn)));
            r.Ok? ==> && Progressed(plan.handoff.batch, old(conn.ledger.work), old(conn.ledger.jobs), r.value.work, r.value.jobs)
                      && IntakeRecorded(plan, STAGES, r.value.work)
                      && RowsAdded(plan.handoff.batch, IntakeKinds(plan), old(conn.ledger.work), 0, r.value.work, r.value.schedulerWork)
    ensures usage.schedulerWork <= SCHEDULER_WORK_CEILING
  {
    ghost var start := Books(conn.ledger.work, conn.ledger.jobs, 0);
    if plan.preamble.Some? {
      return plan.preamble;
    }
    f := InsertBatch(conn, plan);
    if f.Some? {
      return;
    }
    f := RunIntake(conn, usage, plan, STAGES);
    if f.Some? {
      return;
    }
    IntakeRecords(plan, STAGES, start);
    IntakeAdds(plan, start);
    var select := CreateWork(conn, usage, UniformSelection, plan.handoff.batch);
    return if select.Err? then Some(select.error) else None;
  }

  /** Every kind of work row a cycle adds to its batch: five stages and the planned lanes, the selection,
      and the handoffs that were opened. */
  function CycleKinds(plan: Plan, t: Tracking): set<WorkType> {
    IntakeKinds(plan) + ActivationKinds(plan, t, |IntakeKinds(plan)|)
  }

  lemma KindsApart(plan: Plan, t: Tracking, charge: nat)
    ensures IntakeKinds(plan) !! ActivationKinds(plan, t, charge)
    ensures ActivationKinds(plan, t, charge) <= {UniformSelection, HandoffSlot1, HandoffSlot2}
  {
    assert forall kind :: kind in ActivationKinds(plan, t, charge) ==> kind in {UniformSelection, HandoffSlot1, HandoffSlot2};
  }

  lemma CycleAdds(plan: Plan, t: Tracking, before: WorkTable, b: Books, after: WorkTable, charge: nat)
    requires RowsAdded(plan.handoff.batch, IntakeKinds(plan), before, 0, b.work, b.schedulerWork)
    requires RowsAdded(plan.handoff.batch, ActivationKinds(plan, t, b.schedulerWork), b.work, b.schedulerWork, after, charge)
    ensures RowsAdded(plan.handoff.batch, CycleKinds(plan, t), before, 0, after, charge)
  {
    KindsApart(plan, t, b.schedulerWork);
    RowsAddedTrans(plan.handoff.batch, IntakeKinds(plan), ActivationKinds(plan, t, b.schedulerWork), before, 0, b.work, b.schedulerWork, after, charge);
  }

  // ---- The executor ----

  class Executor {
    var lastCanonical: Option<Canonical>

    constructor ()
      ensures lastCanonical == None
    {
      lastCanonical := None;
    }

    /** The steps up to the end of the activation. */
    method RunToActivation(conn: Connection, usage: Usage, plan: Plan) returns (r: Result<CycleEnd, Fault>)
      requires usage.handoffs == 0 && usage.schedulerWork == 0
      modifies conn, conn.ledger, usage
      ensures (r.Ok? || old(Parity(conn.ledger.work, conn.ledger.jobs))) ==> r == BeforeReports(plan, old(DatabaseOf(conn)))
      ensures r.Ok? ==> CycleDone(plan, r.value, old(DatabaseOf(conn)), DatabaseOf(conn), usage.handoffs)
      ensures r.Ok? ==> RowsAdded(plan.handoff.batch, CycleKinds(plan, old(conn.tracking)), old(conn.ledger.work), 0,
                                  conn.ledger.work, usage.schedulerWork)
      ensures r == Ok(Completed) ==>
                usage.schedulerWork == IntakeEnd(plan, old(DatabaseOf(conn))).value.schedulerWork + 1 + |plan.handoff.selected|
      ensures usage.schedulerWork <= SCHEDULER_WORK_CEILING
    {
      ghost var before := DatabaseOf(conn);
      var opening := OpenSelection(conn, usage, plan);
      if opening.Some? {
        return Err(opening.value);
      }
      ghost var b := IntakeEnd(plan, before).value;
      if plan.handoff.mode == Initial && |plan.handoff.selected| < 2 {
        var shortfall := EndShort(conn, usage, plan, b);
        if shortfall.Some? {
          return Err(shortfall.value);
        }
        r := Ok(TerminalFailure(plan.shortfallCause));
      } else {
        r := EndSelected(conn, usage, plan, b);
      }
      if r.Ok? {
        CycleEnds(plan, r.value, before, b, DatabaseOf(conn), usage.schedulerWork, usage.handoffs);
      }
    }

    method RunCycle(conn: Connection, usage: Usage, plan: Plan) returns (r: Result<CycleEnd, Fault>)
      requires usage.handoffs == 0 && usage.schedulerWork == 0
      modifies this, conn, conn.ledger, usage
      ensures (r.Ok? || old(Parity(conn.ledger.work, conn.ledger.jobs))) ==> r == CycleResult(plan, old(DatabaseOf(conn)), old(lastCanonical))
      ensures r.Ok? ==> CycleDone(plan, r.value, old(DatabaseOf(conn)), DatabaseOf(conn), usage.handoffs)
      ensures r.Ok? ==> RowsAdded(plan.handoff.batch, CycleKinds(plan, old(conn.tracking)), old(conn.ledger.work), 0,
                                  conn.ledger.work, usage.schedulerWork)
      ensures lastCanonical == if r == Ok(Completed) then Some(CanonicalOf(plan, usage.schedulerWork)) else old(lastCanonical)
      ensures usage.schedulerWork <= SCHEDULER_WORK_CEILING
    {
      r := RunToActivation(conn, usage, plan);
      if r.Err? {
        return;
      }
      if plan.reportFault.Some? {
        return Err(plan.reportFault.value);
      }
      if r.value.Completed? {
        var selected := plan.handoff.selected;
        var canonical := Canonical(plan.handoff.batch, multiset(Map(selected, MintOf)), plan.facts, usage.schedulerWork, usage.handoffs);
        if lastCanonical.Some? && lastCanonical.value != canonical {
          return Err(Combined("CONFLICTING_REPLAY"));
        }
        lastCanonical := Some(canonical);
      }
    }

    /** One execution: everything is committed together, or everything is undone. */
    method Execute(conn: Connection, plan: Plan) returns (result: ExecutionResult, committed: bool)
      modifies this, conn, conn.ledger
      ensures !committed ==> !result.completed && DatabaseOf(conn) == old(DatabaseOf(conn)) && lastCanonical == old(lastCanonical)
      ensures committed ==> CycleDone(plan, if result.completed then Completed else TerminalFailure(result.cause),
                                      old(DatabaseOf(conn)), DatabaseOf(conn), result.handoffs)
      ensures committed ==> RowsAdded(plan.handoff.batch, CycleKinds(plan, old(conn.tracking)), old(conn.ledger.work), 0,
                                      conn.ledger.work, result.schedulerWork)
      ensures result.completed ==> lastCanonical == Some(CanonicalOf(plan, result.schedulerWork)) && result.cause == "DISCOVERY_CYCLE_COMPLETED"
      ensures !committed && old(Parity(conn.ledger.work, conn.ledger.jobs)) ==>
                var end := CycleResult(plan, old(DatabaseOf(conn)), old(lastCanonical));
                CauseIs(result.cause, plan, if end.Err? then Some(end.error) else None)
      ensures committed || old(Parity(conn.ledger.work, conn.ledger.jobs)) ==>
                (committed <==> MayStart(plan) && CycleResult(plan, old(DatabaseOf(conn)), old(lastCanonical)).Ok?)
      ensures committed ==> CycleResult(plan, old(DatabaseOf(conn)), old(lastCanonical))
                            == Ok(if result.completed then Completed else TerminalFailure(result.cause))
      ensures !MayStart(plan) ==> result.schedulerWork == 0 && result.handoffs == 0
      ensures result.schedulerWork <= SCHEDULER_WORK_CEILING
    {
      if !plan.ownersAvailable {
        return ExecutionResult(false, "OWNER_UNAVAILABLE", 0, 0), false;
      }
      var usage := new Usage();
      var work, jobs, batches, tracking := conn.ledger.work, conn.ledger.jobs, conn.batches, conn.tracking;
      var r: Result<CycleEnd, Fault>;
      if plan.sharedFault.Some? {
        r := Err(Combined(plan.sharedFault.value));
      } else {
        r := RunCycle(conn, usage, plan);
      }
      if r.Err? {
        conn.ledger.work, conn.ledger.jobs, conn.batches, conn.tracking := work, jobs, batches, tracking;
        return ExecutionResult(false, CauseOf(r.error), usage.schedulerWork, usage.handoffs), false;
      }
      match r.value {
        case Completed =>
          return ExecutionResult(true, "DISCOVERY_CYCLE_COMPLETED", usage.schedulerWork, usage.handoffs), true;
        case TerminalFailure(cause) =>
          return ExecutionResult(false, cause, usage.schedulerWork, usage.handoffs), true;
      }
    }
  }

  predicate MayStart(plan: Plan) {
    plan.ownersAvailable && plan.sharedFault.None?
  }

  function CauseOf(f: Fault): string {
    match f
    case Combined(code) => code
    case Persistence => "PERSISTENCE_FAULT"
    case OtherException => "SHARED_FAILURE"
  }

  /** What an execution that commits nothing reports: the missing owner, the code of the fault, or
      the text for a persistence fault or for any other one. */
  ghost predicate CauseIs(cause: string, plan: Plan, fault: Option<Fault>) {
    if !plan.ownersAvailable then cause == "OWNER_UNAVAILABLE"
    else if plan.sharedFault.Some? then cause == plan.sharedFault.value
    else
      && fault.Some?
      && (fault.value.Combined? ==> cause == fault.value.code)
      && (fault.value.Persistence? ==> cause == "PERSISTENCE_FAULT")
      && (fault.value.OtherException? ==> cause == "SHARED_FAILURE")
  }

  /** The intake, then the selection and the activation, make a cycle. */
  lemma CycleEnds(plan: Plan, end: CycleEnd, before: Database, b: Books, after: Database, charge: nat, handoffs: nat)
    requires Progressed(plan.handoff.batch, before.work, before.jobs, b.work, b.jobs) && IntakeRecorded(plan, STAGES, b.work)
    requires RowsAdded(plan.handoff.batch, IntakeKinds(plan), before.work, 0, b.work, b.schedulerWork)
    requires SelectionLeaves(plan, end, before.tracking, WithBatch(plan, before.batches), b, after, charge, handoffs)
    ensures CycleDone(plan, end, before, after, handoffs)
    ensures RowsAdded(plan.handoff.batch, CycleKinds(plan, before.tracking), before.work, 0, after.work, charge)
  {
    ProgressedTrans(plan.handoff.batch, before.work, before.jobs, b.work, b.jobs, after.work, after.jobs);
    RecordsStay(plan, STAGES, b.work, after.work);
    CycleAdds(plan, before.tracking, before.work, b, after.work, charge);
  }

  // ---- The rows of one batch ----

  /** An initial handoff gets its two rows when two tokens were selected and its preflight passes; nine
      rows can be charged before it. */
  predicate HandoffOpened(plan: Plan, t: Tracking) {
    && plan.handoff.mode == Initial && |plan.handoff.selected| >= 2
    && Preflight(InitialPlan(plan), t, 6 + |PlannedLanes(plan)|, 0).None? && plan.handoff.preflightFault.None?
  }

  lemma {:induction false} KindIdCount(batch: string, kinds: set<WorkType>)
    ensures |set kind | kind in kinds :: WorkId(kind, batch)| == |kinds|
    decreases kinds
  {
    if kinds == {} {
      assert (set kind | kind in kinds :: WorkId(kind, batch)) == {};
    } else {
      var kind :| kind in kinds;
      KindIdCount(batch, kinds - {kind});
      assert (set k | k in kinds :: WorkId(k, batch)) == (set k | k in kinds - {kind} :: WorkId(k, batch)) + {WorkId(kind, batch)};
    }
  }

  /** The rows a committed cycle leaves in a new batch, by kind, and their number. */
  ghost predicate RowsByKind(plan: Plan, t: Tracking, work: WorkTable, charge: nat) {
    var batch := plan.handoff.batch;
    && WorkId(PumpfunLatest, batch) in work && WorkId(IdentityMerge, batch) in work && WorkId(OriginVerification, batch) in work
    && WorkId(PumpswapConfirmation, batch) in work && WorkId(EligibilityGates, batch) in work && WorkId(UniformSelection, batch) in work
    && (WorkId(GeckoTrending, batch) in work <==> plan.planned(GeckoTrending))
    && (WorkId(SolanaTracker, batch) in work <==> plan.planned(SolanaTracker))
    && (WorkId(DexscreenerActive, batch) in work <==> plan.planned(DexscreenerActive))
    && (plan.handoff.mode == Initial ==> (WorkId(HandoffSlot1, batch) in work <==> HandoffOpened(plan, t)))
    && (plan.handoff.mode == Initial ==> (WorkId(HandoffSlot2, batch) in work <==> HandoffOpened(plan, t)))
    && charge == |BatchRows(work, batch)|
  }

  /** Committing a batch that had no rows: the launchpad lane, the merge, both verifications, the gates and
      the selection have a row whatever the plan; a secondary lane has one exactly when it is planned; both
      handoffs have one exactly when an initial handoff was opened; the scheduler work is their number. */
  lemma NewBatchRows(plan: Plan, t: Tracking, before: WorkTable, after: WorkTable, charge: nat)
    requires RowsAdded(plan.handoff.batch, CycleKinds(plan, t), before, 0, after, charge)
    requires forall id :: id in before ==> id.batch != plan.handoff.batch
    ensures RowsByKind(plan, t, after, charge)
  {
    var batch, kinds := plan.handoff.batch, CycleKinds(plan, t);
    KindIdCount(batch, kinds);
    assert BatchRows(after, batch) == (set kind | kind in kinds :: WorkId(kind, batch));
    CycleKindsNamed(plan, t);
  }

  lemma IntakeCount(plan: Plan)
    ensures |IntakeKinds(plan)| == 5 + |PlannedLanes(plan)|
  {
    var stages := {PumpfunLatest, IdentityMerge, OriginVerification, PumpswapConfirmation, EligibilityGates};
    assert stages !! PlannedLanes(plan) && |stages| == 5;
  }

  /** The six rows that are always there, and the lanes that are planned. */
  predicate LanesNamed(plan: Plan, kinds: set<WorkType>) {
    && {PumpfunLatest, IdentityMerge, OriginVerification, PumpswapConfirmation, EligibilityGates, UniformSelection} <= kinds
    && (GeckoTrending in kinds <==> plan.planned(GeckoTrending))
    && (SolanaTracker in kinds <==> plan.planned(SolanaTracker))
    && (DexscreenerActive in kinds <==> plan.planned(DexscreenerActive))
  }

  lemma CycleKindsNamed(plan: Plan, t: Tracking)
    ensures LanesNamed(plan, CycleKinds(plan, t))
    ensures plan.handoff.mode == Initial ==> (HandoffSlot1 in CycleKinds(plan, t) <==> HandoffOpened(plan, t))
    ensures plan.handoff.mode == Initial ==> (HandoffSlot2 in CycleKinds(plan, t) <==> HandoffOpened(plan, t))
  {
    IntakeCount(plan);
    var charge := |IntakeKinds(plan)|;
    if plan.handoff.mode == Initial {
      OpenedKinds(plan, t, charge);
    }
    KindsApart(plan, t, charge);
    IntakeNamed(plan, ActivationKinds(plan, t, charge));
  }

  lemma IntakeNamed(plan: Plan, rest: set<WorkType>)
    requires UniformSelection in rest && rest <= {UniformSelection, HandoffSlot1, HandoffSlot2}
    ensures LanesNamed(plan, IntakeKinds(plan) + rest)
    ensures HandoffSlot1 in IntakeKinds(plan) + rest <==> HandoffSlot1 in rest
    ensures HandoffSlot2 in IntakeKinds(plan) + rest <==> HandoffSlot2 in rest
  {
    PlannedNamed(plan);
  }

  lemma PlannedNamed(plan: Plan)
    ensures GeckoTrending in PlannedLanes(plan) <==> plan.planned(GeckoTrending)
    ensures SolanaTracker in PlannedLanes(plan) <==> plan.planned(SolanaTracker)
    ensures DexscreenerActive in PlannedLanes(plan) <==> plan.planned(DexscreenerActive)
  {
  }

  lemma OpenedKinds(plan: Plan, t: Tracking, charge: nat)
    requires plan.handoff.mode == Initial && charge == 5 + |PlannedLanes(plan)|
    ensures ActivationKinds(plan, t, charge) == {UniformSelection} + if HandoffOpened(plan, t) then {HandoffSlot1, HandoffSlot2} else {}
  {
  }

  /** An initial cycle is charged for six rows, its planned lanes, and the two handoffs that were opened. */
  lemma InitialCharge(plan: Plan, t: Tracking, before: WorkTable, after: WorkTable, charge: nat)
    requires RowsAdded(plan.handoff.batch, CycleKinds(plan, t), before, 0, after, charge) && plan.handoff.mode == Initial
    ensures charge == 6 + |PlannedLanes(plan)| + if HandoffOpened(plan, t) then 2 else 0
  {
    IntakeCount(plan);
    var intake := |IntakeKinds(plan)|;
    OpenedKinds(plan, t, intake);
    KindsApart(plan, t, intake);
    assert |{UniformSelection, HandoffSlot1, HandoffSlot2}| == 3;
    UnionCount(IntakeKinds(plan), ActivationKinds(plan, t, intake));
  }

  lemma UnionCount(a: set<WorkType>, b: set<WorkType>)
    requires a !! b
    ensures |a + b| == |a| + |b|
  {
  }

  /** With every lane planned and both handoffs opened, that is the whole ceiling of eleven. */
  lemma FullCycleCharge(plan: Plan, t: Tracking, before: WorkTable, after: WorkTable, charge: nat)
    requires RowsAdded(plan.handoff.batch, CycleKinds(plan, t), before, 0, after, charge)
    requires plan.planned(GeckoTrending) && plan.planned(SolanaTracker) && plan.planned(DexscreenerActive) && HandoffOpened(plan, t)
    ensures charge == 11
  {
    InitialCharge(plan, t, before, after, charge);
    assert PlannedLanes(plan) == {GeckoTrending, SolanaTracker, DexscreenerActive};
    assert |{GeckoTrending, SolanaTracker, DexscreenerActive}| == 3;
  }

  // ---- The order of the stages ----

  /** The place of a stage in a cycle. */
  function Place(kind: WorkType): nat {
    match kind
    case PumpfunLatest => 0
    case GeckoTrending => 1
    case SolanaTracker => 2
    case DexscreenerActive => 3
    case IdentityMerge => 4
    case OriginVerification => 5
    case PumpswapConfirmation => 6
    case EligibilityGates => 7
    case _ => 8
  }

  predicate RaisesIn(plan: Plan, kind: WorkType) {
    Ran(plan, kind) && plan.stage(kind).StageRaises?
  }

  lemma StageAt(kind: WorkType)
    requires Place(kind) < 8
    ensures |STAGES| == 8 && STAGES[Place(kind)] == kind
    ensures forall i :: 0 <= i < 8 ==> Place(STAGES[i]) == i
  {
  }

  /** Over a new batch the cycle is undone with the fault of the first stage that raises: the launchpad lane
      is asked first, then trending, tracker and active lane, the merge, origin, pair confirmation, gates. */
  lemma FirstStageFault(plan: Plan, db: Database, kind: WorkType)
    requires Place(kind) < 8 && RaisesIn(plan, kind) && forall other :: Place(other) < Place(kind) ==> !RaisesIn(plan, other)
    requires plan.preamble.None? && plan.handoff.batch !in db.batches && forall id :: id in db.work ==> id.batch != plan.handoff.batch
    ensures BeforeReports(plan, db) == Err(plan.stage(kind).fault)
  {
    IntakeStops(plan, kind, Books(db.work, db.jobs, 0));
  }

  lemma IntakeStops(plan: Plan, kind: WorkType, start: Books)
    requires Place(kind) < 8 && RaisesIn(plan, kind) && forall other :: Place(other) < Place(kind) ==> !RaisesIn(plan, other)
    requires start.schedulerWork == 0 && forall id :: id in start.work ==> id.batch != plan.handoff.batch
    ensures IntakeBooks(plan, STAGES, start) == Err(plan.stage(kind).fault)
  {
    var k := Place(kind);
    StageAt(kind);
    StagesRun(plan);
    StagesBefore(plan, k, start);
    var now := IntakeBooks(plan, STAGES[..k], start).value;
    StageRaised(plan, kind, now);
    RunStepsNext(STAGES, k, StageStep(plan), start, now);
    RunStepsEnd(STAGES, k + 1, StageStep(plan), start);
  }

  lemma StagesBefore(plan: Plan, k: nat, start: Books)
    requires k < |STAGES| == 8 && Distinct(STAGES) && forall i :: 0 <= i < 8 ==> Place(STAGES[i]) == i
    requires forall other :: Place(other) < k ==> !RaisesIn(plan, other)
    requires start.schedulerWork == 0 && forall id :: id in start.work ==> id.batch != plan.handoff.batch
    ensures var r := IntakeBooks(plan, STAGES[..k], start);
            r.Ok? && r.value.schedulerWork < SCHEDULER_WORK_CEILING && WorkId(STAGES[k], plan.handoff.batch) !in r.value.work
  {
    forall kind | kind in STAGES[..k] ensures Place(kind) < k {
      var i :| 0 <= i < k && STAGES[i] == kind;
    }
    QuietStages(plan, STAGES[..k], start);
  }

  lemma StageRaised(plan: Plan, kind: WorkType, b: Books)
    requires RaisesIn(plan, kind) && b.schedulerWork < SCHEDULER_WORK_CEILING && WorkId(kind, plan.handoff.batch) !in b.work
    ensures StageBooks(plan, kind, b) == Err(plan.stage(kind).fault)
  {
  }

  /** Stages that do not raise open their rows as long as the batch is new and the ceiling leaves room. */
  lemma {:induction false} QuietStages(plan: Plan, kinds: seq<WorkType>, b: Books)
    requires Distinct(kinds) && b.schedulerWork + |kinds| <= SCHEDULER_WORK_CEILING
    requires forall kind :: kind in kinds ==> !RaisesIn(plan, kind) && WorkId(kind, plan.handoff.batch) !in b.work
    ensures var r := IntakeBooks(plan, kinds, b);
            && r.Ok? && r.value.schedulerWork <= b.schedulerWork + |kinds|
            && forall id :: id in r.value.work ==> id in b.work || id.kind in kinds
    decreases |kinds|
  {
    if kinds != [] {
      var front, kind := kinds[..|kinds| - 1], kinds[|kinds| - 1];
      QuietStages(plan, front, b);
      assert kind !in front;
      QuietStage(plan, kind, IntakeBooks(plan, front, b).value);
    }
  }

  lemma QuietStage(plan: Plan, kind: WorkType, b: Books)
    requires b.schedulerWork < SCHEDULER_WORK_CEILING && !RaisesIn(plan, kind) && WorkId(kind, plan.handoff.batch) !in b.work
    ensures var r := StageBooks(plan, kind, b);
            && r.Ok? && r.value.schedulerWork <= b.schedulerWork + 1
            && forall id :: id in r.value.work ==> id in b.work || id.kind == kind
  {
  }

  // ---- Whole runs ----

  /** Every work row is terminal and the job it owns carries exactly the matching outcome. */
  ghost predicate Settled(work: WorkTable, jobs: JobTable) {
    Parity(work, jobs) && OpenIds(work) == {}
  }

  lemma SettledRows(work: WorkTable, jobs: JobTable, id: WorkId)
    requires Settled(work, jobs) && id in work
    ensures ActionFor(work[id].state).Some? && work[id].job < |jobs|
    ensures jobs[work[id].job] == JobRow(DiscoveryJob(id.kind, id.batch), None, Applied(ActionFor(work[id].state).value))
    ensures forall other :: other in work && work[other].job == work[id].job ==> other == id
  {
    assert Agrees(work, jobs, id);
    assert id !in OpenIds(work);
    forall other | other in work && work[other].job == work[id].job ensures other == id {
      assert Agrees(work, jobs, other);
      OwnersAreUnique(work, jobs, id, other);
    }
  }

  /** The first stage of a batch, which every cycle runs, has ended. */
  ghost predicate BatchBegun(batch: string, work: WorkTable) {
    var id := WorkId(PumpfunLatest, batch);
    id in work && !Open(work[id].state)
  }

  /** A committed cycle has begun its batch, and nothing un-begins a batch. */
  lemma CommittedHasBegun(plan: Plan, end: CycleEnd, before: Database, after: Database, handoffs: nat)
    requires CycleDone(plan, end, before, after, handoffs)
    ensures BatchBegun(plan.handoff.batch, after.work)
    ensures forall batch :: BatchBegun(batch, before.work) ==> BatchBegun(batch, after.work)
  {
    assert STAGES[0] == PumpfunLatest;
    assert StageRecorded(plan, PumpfunLatest, after.work);
  }

  /** A batch that was committed once is never committed again, whatever the plan: its first work
      row is there with an outcome, and an insert that would run it again is a conflict. */
  lemma ReplayNeverCommits(plan: Plan, db: Database, last: Option<Canonical>)
    requires BatchBegun(plan.handoff.batch, db.work)
    ensures CycleResult(plan, db, last).Err?
  {
    var start := Books(db.work, db.jobs, 0);
    assert STAGES[..0] == [] && STAGES[0] == PumpfunLatest;
    RunStepsNext(STAGES, 0, StageStep(plan), start, start);
    RunStepsEnd(STAGES, 1, StageStep(plan), start);
  }

  /** One execution of a run. */
  method ExecuteNext(conn: Connection, executor: Executor, plan: Plan) returns (stored: bool)
    requires Settled(conn.ledger.work, conn.ledger.jobs)
    modifies conn, conn.ledger, executor
    ensures Settled(conn.ledger.work, conn.ledger.jobs)
    ensures stored ==> !BatchBegun(plan.handoff.batch, old(conn.ledger.work)) && BatchBegun(plan.handoff.batch, conn.ledger.work)
    ensures forall batch :: BatchBegun(batch, old(conn.ledger.work)) ==> BatchBegun(batch, conn.ledger.work)
  {
    ghost var before, last := DatabaseOf(conn), executor.lastCanonical;
    var result, committed := executor.Execute(conn, plan);
    if committed {
      CommittedHasBegun(plan, if result.completed then Completed else TerminalFailure(result.cause), before, DatabaseOf(conn), result.handoffs);
      if BatchBegun(plan.handoff.batch, before.work) {
        ReplayNeverCommits(plan, before, last);
      }
    }
    return committed;
  }

  /** Any number of executions, by any executors, keep a settled database settled, and commit each
      discovery batch at most once. */
  method ExecuteAll(conn: Connection, executors: seq<Executor>, plans: seq<Plan>) returns (committed: seq<bool>)
    requires |executors| == |plans|
    requires Settled(conn.ledger.work, conn.ledger.jobs)
    modifies conn, conn.ledger, executors
    ensures Settled(conn.ledger.work, conn.ledger.jobs)
    ensures |committed| == |plans|
    ensures forall i, j :: 0 <= i < j < |plans| && committed[i] && committed[j] ==> plans[i].handoff.batch != plans[j].handoff.batch
    ensures forall i :: 0 <= i < |plans| && committed[i] ==> BatchBegun(plans[i].handoff.batch, conn.ledger.work)
  {
    committed := [];
    for k := 0 to |plans|
      invariant Settled(conn.ledger.work, conn.ledger.jobs)
      invariant |committed| == k
      invariant forall i :: 0 <= i < k && committed[i] ==> BatchBegun(plans[i].handoff.batch, conn.ledger.work)
      invariant forall i, j :: 0 <= i < j < k && committed[i] && committed[j] ==> plans[i].handoff.batch != plans[j].handoff.batch
    {
      var stored := ExecuteNext(conn, executors[k], plans[k]);
      committed := committed + [stored];
    }
  }

  /** An executor completes at most one cycle: a further one either repeats its batch or conflicts
      with the result it remembers. */
  lemma ExecutorCompletesOnce(plan: Plan, db: Database, last: Canonical)
    requires BatchBegun(last.batch, db.work)
    ensures CycleResult(plan, db, Some(last)) != Ok(Completed)
  {
    if plan.handoff.batch == last.batch {
      ReplayNeverCommits(plan, db, Some(last));
    }
  }

  // ---- A fresh cycle without faults completes ----

  predicate Faultless(plan: Plan) {
    && MayStart(plan) && plan.preamble.None? && plan.reportFault.None? && plan.handoff.preflightFault.None?
    && plan.handoff.mode == Initial
    && forall kind :: kind in STAGES ==> !plan.stage(kind).StageRaises?
  }

  ghost predicate NoStepFaults(h: HandoffPlan) {
    forall i, step :: h.fault(i, step).None?
  }

  /** First-window jobs only target queue rows that exist. */
  ghost predicate WindowsTargeted(jobs: JobTable, queued: nat) {
    forall j :: 0 <= j < |jobs| && jobs[j].name.FirstWindow? ==> jobs[j].target.Some? && jobs[j].target.value < queued
  }

  ghost predicate NewToken(c: Selection, t: Tracking) {
    && c.mint != "" && c.market != "" && c.originConfirmed
    && LatestRow(t.queue, c.mint, PoolOf(c.market)).None?
    && (PoolOf(c.market) in t.pairs ==> t.pairs[PoolOf(c.market)] == c.mint)
  }

  /** Two different tokens that tracking does not know, and a cycle that has no slot or link yet. */
  ghost predicate FreshPair(h: HandoffPlan, t: Tracking) {
    && |h.selected| == 2 && NewToken(h.selected[0], t) && NewToken(h.selected[1], t)
    && h.selected[0].mint != h.selected[1].mint && PoolOf(h.selected[0].market) != PoolOf(h.selected[1].market)
    && h.selected[0].id != h.selected[1].id
    && (forall key :: key in t.slots ==> key.cycle != h.cycle)
    && (forall k :: 0 <= k < |t.links| ==> t.links[k].batch != h.batch)
    && h.selectionBatch !in t.selectionBatches && h.selectionBatch !in t.batchLinks
  }

  lemma NewTokenClaims(h: HandoffPlan, index: nat, c: Selection, ordinal: int, t: Tracking, jobs: JobTable, handoffs: nat)
    requires NoStepFaults(h) && NewToken(c, t) && ordinal in {1, 2} && handoffs + 1 <= HANDOFF_CEILING
    requires SlotKey(h.cycle, ordinal) !in t.slots && forall key :: key in t.slots && key.cycle == h.cycle ==> t.slots[key].mint != c.mint
    requires LinkAllowed(h, t, c) && WindowsTargeted(jobs, |t.queue|)
    ensures SlotFault(h, index, c, ordinal, t, jobs, handoffs) == None
  {
  }

  lemma StillNew(t: Tracking, after: Tracking, a: Selection, c: Selection)
    requires NewToken(c, t) && a.mint != c.mint && PoolOf(a.market) != PoolOf(c.market)
    requires after.queue == t.queue + [QueueRowOf(a)]
    requires after.pairs == WithIdentity(t, a.mint, PoolOf(a.market)).pairs
    ensures NewToken(c, after)
  {
    assert after.queue[..|after.queue| - 1] == t.queue;
  }

  /** Two new tokens are handed off, whatever else the tracking tables hold. */
  lemma FreshPairHandsOff(h: HandoffPlan, t: Tracking, work: WorkTable, jobs: JobTable)
    requires NoStepFaults(h) && FreshPair(h, t) && WindowsTargeted(jobs, |t.queue|)
    ensures PairFault(h, t, work, jobs, 0) == None
  {
    var s, a, c := WithSelectionBatch(h, t), h.selected[0], h.selected[1];
    NewTokenClaims(h, 0, a, 1, s, jobs, 0);
    var t1 := SlotTracking(h, s, a, 1, |jobs|);
    SlotTables(h, s, a, 1, |jobs|);
    StillNew(s, t1, a, c);
    var more := jobs + [FirstWindowJob(a, |t.queue|)];
    assert WindowsTargeted(more, |t1.queue|);
    NewTokenClaims(h, 1, c, 2, t1, JobsEnded(work, more, WorkId(HandoffSlot1, h.batch), WorkSucceeded), 1);
  }

  /** A stage that does not raise succeeds when its row is new and the ceiling leaves room. */
  lemma FreshIntake(plan: Plan, kinds: seq<WorkType>, b: Books, queued: nat)
    requires Distinct(kinds) && b.schedulerWork + |kinds| <= SCHEDULER_WORK_CEILING && WindowsTargeted(b.jobs, queued)
    requires forall kind :: kind in kinds ==> !plan.stage(kind).StageRaises? && WorkId(kind, plan.handoff.batch) !in b.work
    ensures var r := IntakeBooks(plan, kinds, b);
            && r.Ok? && r.value.schedulerWork <= b.schedulerWork + |kinds| && WindowsTargeted(r.value.jobs, queued)
            && forall id :: id in r.value.work ==> id in b.work || id.kind in kinds
  {
    QuietStages(plan, kinds, b);
    IntakeWindows(plan, kinds, b, queued);
  }

  /** The intake adds no first-window job. */
  lemma {:induction false} IntakeWindows(plan: Plan, kinds: seq<WorkType>, b: Books, queued: nat)
    requires IntakeBooks(plan, kinds, b).Ok? && WindowsTargeted(b.jobs, queued)
    ensures WindowsTargeted(IntakeBooks(plan, kinds, b).value.jobs, queued)
    decreases |kinds|
  {
    if kinds != [] {
      IntakeWindows(plan, kinds[..|kinds| - 1], b, queued);
      StageWindows(plan, kinds[|kinds| - 1], IntakeBooks(plan, kinds[..|kinds| - 1], b).value, queued);
    }
  }

  lemma StageWindows(plan: Plan, kind: WorkType, b: Books, queued: nat)
    requires StageBooks(plan, kind, b).Ok? && WindowsTargeted(b.jobs, queued)
    ensures WindowsTargeted(StageBooks(plan, kind, b).value.jobs, queued)
  {
  }

  lemma FreshOpening(plan: Plan, b: Books, queued: nat)
    requires b.schedulerWork + 2 <= SCHEDULER_WORK_CEILING && WindowsTargeted(b.jobs, queued)
    requires forall id :: id in HandoffIds(plan.handoff.batch) ==> id !in b.work
    ensures OpeningFault(plan.handoff.batch, b.work, b.jobs, b.schedulerWork).None?
    ensures WindowsTargeted(BothOpened(plan.handoff.batch, b.work, b.jobs).1, queued)
  {
    assert WorkId(HandoffSlot1, plan.handoff.batch) in HandoffIds(plan.handoff.batch);
    assert WorkId(HandoffSlot2, plan.handoff.batch) in HandoffIds(plan.handoff.batch);
  }

  lemma FreshPreflight(h: HandoffPlan, t: Tracking, schedulerWork: nat)
    requires FreshPair(h, t) && h.vacancies == [1, 2] && schedulerWork + 2 <= SCHEDULER_WORK_CEILING
    ensures Preflight(h, t, schedulerWork, 0).None?
  {
  }

  lemma FreshHandoff(h: HandoffPlan, t: Tracking, b: Books)
    requires Preflight(h, t, b.schedulerWork, 0).None? && h.preflightFault.None?
    requires OpeningFault(h.batch, b.work, b.jobs, b.schedulerWork).None?
    requires var both := BothOpened(h.batch, b.work, b.jobs); PairFault(h, t, both.0, both.1, 0) == None
    ensures HandoffFault(h, t, b.work, b.jobs, b.schedulerWork, 0) == None
  {
  }

  lemma FreshActivation(plan: Plan, t: Tracking, b: Books)
    requires Faultless(plan) && NoStepFaults(plan.handoff) && FreshPair(plan.handoff, t)
    requires b.schedulerWork + 2 <= SCHEDULER_WORK_CEILING && WindowsTargeted(b.jobs, |t.queue|)
    requires forall id :: id in HandoffIds(plan.handoff.batch) ==> id !in b.work
    ensures ActivationEnd(plan, t, b) == Ok(Completed)
  {
    var h := InitialPlan(plan);
    FreshOpening(plan, b, |t.queue|);
    FreshPairHandsOff(h, t, BothOpened(h.batch, b.work, b.jobs).0, BothOpened(h.batch, b.work, b.jobs).1);
    FreshPreflight(h, t, b.schedulerWork);
    FreshHandoff(h, t, b);
  }

  /** A faultless initial cycle over a new batch and two new tokens completes: eight intake stages, the
      selection and two handoffs are all that the ceiling of eleven allows, and it is enough. */
  lemma FreshCycleCompletes(plan: Plan, db: Database)
    requires Faultless(plan) && NoStepFaults(plan.handoff) && FreshPair(plan.handoff, db.tracking)
    requires plan.handoff.batch !in db.batches && forall id :: id in db.work ==> id.batch != plan.handoff.batch
    requires WindowsTargeted(db.jobs, |db.tracking.queue|)
    ensures CycleResult(plan, db, None) == Ok(Completed)
  {
    var queued := |db.tracking.queue|;
    FreshIntake(plan, STAGES, Books(db.work, db.jobs, 0), queued);
    var b := IntakeBooks(plan, STAGES, Books(db.work, db.jobs, 0)).value;
    assert SelectionId(plan) !in b.work;
    FreshSelection(plan, b, queued);
    FreshActivation(plan, db.tracking, SelectionEnded(plan, b));
  }

  lemma FreshSelection(plan: Plan, b: Books, queued: nat)
    requires b.schedulerWork <= 8 && WindowsTargeted(b.jobs, queued)
    requires forall id :: id in b.work && id.batch == plan.handoff.batch ==> id.kind in STAGES
    ensures OpenFault(b.work, b.jobs, b.schedulerWork, SelectionId(plan)).None?
    ensures var r := SelectionEnded(plan, b);
            && r.schedulerWork + 2 <= SCHEDULER_WORK_CEILING && WindowsTargeted(r.jobs, queued)
            && forall id :: id in HandoffIds(plan.handoff.batch) ==> id !in r.work
  {
  }

  // ---- Which failed handoffs are committed ----

  /** The tracked cooldown of the token has run out, but nothing fresh was evaluated for it. */
  predicate NeedsRequalification(queue: seq<QueueRow>, c: Selection, now: int) {
    Assess(queue, c.mint, PoolOf(c.market), now).Requalifiable? && !c.freshEvidence
  }

  const REQUALIFICATION := "COOLDOWN_REQUALIFICATION_REQUIRED"

  /** The token may be claimed, its slot taken and its candidate linked. */
  predicate Claimable(h: HandoffPlan, t: Tracking, c: Selection, ordinal: int) {
    && MayClaim(t.queue, c, h.now)
    && SlotRefusal(h, WithIdentity(t, c.mint, PoolOf(c.market)), c, ordinal).None?
    && LinkAllowed(h, t, c)
  }

  lemma RequalificationIsNotListed()
    ensures REQUALIFICATION !in INITIAL_FAILURES
  {
    assert forall code :: code in INITIAL_FAILURES ==> |code| < |REQUALIFICATION|;
  }

  /** One slot, without step faults: it is handed off exactly when it may be claimed, and what stops
      it is either a listed failure, an unexpected fault, or the missing requalification. */
  lemma SlotFaultExactly(h: HandoffPlan, index: nat, c: Selection, ordinal: int, t: Tracking, jobs: JobTable, handoffs: nat)
    requires NoStepFaults(h) && WindowsTargeted(jobs, |t.queue|) && handoffs + 1 <= HANDOFF_CEILING
    ensures var fault := SlotFault(h, index, c, ordinal, t, jobs, handoffs);
            && (fault.None? <==> Claimable(h, t, c, ordinal))
            && (fault == Some(Combined(REQUALIFICATION)) <==> NeedsRequalification(t.queue, c, h.now))
            && (fault.Some? && fault.value.Combined? && !NeedsRequalification(t.queue, c, h.now) ==> fault.value.code in INITIAL_FAILURES)
  {
    RequalificationIsNotListed();
    var a := Assess(t.queue, c.mint, PoolOf(c.market), h.now);
    assert a.Refused? ==> a.code in INITIAL_FAILURES;
    assert "HEALTHY_SLOT_MUTATION" in INITIAL_FAILURES && "CONFLICTING_SLOT" in INITIAL_FAILURES;
  }

  /** The selection batch is new, or already linked to this discovery batch. */
  predicate SelectionBatchFree(h: HandoffPlan, t: Tracking) {
    h.selectionBatch !in t.selectionBatches && (h.selectionBatch in t.batchLinks ==> t.batchLinks[h.selectionBatch] == h.batch)
  }

  /** The first token that cannot be claimed lacks its requalification; the second token is judged
      on the queue that the first one left. */
  predicate HeldForRequalification(h: HandoffPlan, t: Tracking) {
    && Preflight(h, t, 0, 0).None? && SelectionBatchFree(h, t)
    && var a, c := h.selected[0], h.selected[1];
       || NeedsRequalification(t.queue, a, h.now)
       || (Claimable(h, WithSelectionBatch(h, t), a, 1) && NeedsRequalification(t.queue + [QueueRowOf(a)], c, h.now))
  }

  lemma PairFaultExactly(h: HandoffPlan, t: Tracking, work: WorkTable, jobs: JobTable)
    requires NoStepFaults(h) && Preflight(h, t, 0, 0).None? && WindowsTargeted(jobs, |t.queue|)
    ensures var fault := PairFault(h, t, work, jobs, 0);
            && (fault == Some(Combined(REQUALIFICATION)) <==> HeldForRequalification(h, t))
            && (fault.Some? && fault.value.Combined? && !HeldForRequalification(h, t) ==> fault.value.code in INITIAL_FAILURES)
  {
    var s, a, c := WithSelectionBatch(h, t), h.selected[0], h.selected[1];
    SlotFaultExactly(h, 0, a, 1, s, jobs, 0);
    var t1, more := SlotTracking(h, s, a, 1, |jobs|), jobs + [FirstWindowJob(a, |t.queue|)];
    SlotTables(h, s, a, 1, |jobs|);
    assert WindowsTargeted(more, |t1.queue|);
    SlotFaultExactly(h, 1, c, 2, t1, JobsEnded(work, more, WorkId(HandoffSlot1, h.batch), WorkSucceeded), 1);
  }

  lemma RoomIgnored(h: HandoffPlan, t: Tracking, schedulerWork: nat)
    requires schedulerWork + 2 <= SCHEDULER_WORK_CEILING
    ensures Preflight(h, t, schedulerWork, 0) == Preflight(h, t, 0, 0)
    ensures Preflight(h, t, 0, 0).Some? ==> Preflight(h, t, 0, 0).value in INITIAL_FAILURES
  {
  }

  lemma HandoffEnds(plan: Plan, t: Tracking, b: Books)
    requires Faultless(plan) && NoStepFaults(plan.handoff)
    requires b.schedulerWork + 2 <= SCHEDULER_WORK_CEILING && WindowsTargeted(b.jobs, |t.queue|)
    requires forall id :: id in HandoffIds(plan.handoff.batch) ==> id !in b.work
    ensures ActivationEnd(plan, t, b).Err? <==> HeldForRequalification(InitialPlan(plan), t)
    ensures ActivationEnd(plan, t, b).Err? ==> ActivationEnd(plan, t, b) == Err(Combined(REQUALIFICATION))
  {
    var h := InitialPlan(plan);
    RoomIgnored(h, t, b.schedulerWork);
    RequalificationIsNotListed();
    if Preflight(h, t, 0, 0).None? {
      FreshOpening(plan, b, |t.queue|);
      var both := BothOpened(h.batch, b.work, b.jobs);
      PairFaultExactly(h, t, both.0, both.1);
      assert HandoffFault(h, t, b.work, b.jobs, b.schedulerWork, 0) == Reported(PairFault(h, t, both.0, both.1, 0));
    }
  }

  /** A faultless initial cycle over a new batch is undone for one reason only: the first token that
      cannot be claimed lacks its requalification. Every other failure of the handoff, and every
      shortfall, is committed as a failed batch. */
  lemma FailedHandoffIsUndoneExactly(plan: Plan, db: Database)
    requires Faultless(plan) && NoStepFaults(plan.handoff)
    requires plan.handoff.batch !in db.batches && forall id :: id in db.work ==> id.batch != plan.handoff.batch
    requires WindowsTargeted(db.jobs, |db.tracking.queue|)
    ensures CycleResult(plan, db, None) == Err(Combined(REQUALIFICATION)) <==> HeldForRequalification(InitialPlan(plan), db.tracking)
    ensures CycleResult(plan, db, None).Err? ==> CycleResult(plan, db, None) == Err(Combined(REQUALIFICATION))
  {
    var queued := |db.tracking.queue|;
    FreshIntake(plan, STAGES, Books(db.work, db.jobs, 0), queued);
    var b := IntakeBooks(plan, STAGES, Books(db.work, db.jobs, 0)).value;
    FreshSelection(plan, b, queued);
    if !Shortfall(plan) {
      HandoffEnds(plan, db.tracking, SelectionEnded(plan, b));
    }
  }

  /** A database whose queue holds one token, its cooldown over since time 1. */
  const ONE_COOLED_DOWN :=
    Database(map[], [], map[], Tracking({}, map[], map[], map[], [QueueRow("m", "p", Cooldown(Some(1)))], map[], [], []))

  function Graduate(id: string, mint: string, pool: string): Selection {
    Selection(id, mint, CategoricalSelection.PUMPSWAP_MARKET_PREFIX + pool, CategoricalSelection.GRADUATED_LIFECYCLE, true, false)
  }

  /** A faultless initial plan, at time 2, for that token and a new one, both without fresh evidence. */
  function CooledPlan(): Plan {
    var selected := [Graduate("a", "m", "p"), Graduate("b", "n", "q")];
    var h := HandoffPlan("b", "c", "s", Initial, 2, selected, [1, 2], (_: nat, _: HandoffStep) => None, None);
    Plan(h, true, None, None, 0, _ => true, _ => StageSucceeded(""), "", None, false, None, 0)
  }

  lemma CooledTokenIsHeld(h: HandoffPlan, t: Tracking)
    requires h == InitialPlan(CooledPlan()) && t == ONE_COOLED_DOWN.tracking
    ensures HeldForRequalification(h, t)
  {
    var c := h.selected[0];
    PoolAfterColon(CategoricalSelection.PUMPSWAP_MARKET_PREFIX, "p");
    assert LatestRow(t.queue, "m", "p") == Some(0);
    assert NeedsRequalification(t.queue, c, h.now);
    assert Preflight(h, t, 0, 0).None?;
  }

  /** Such a cycle is undone and not committed as a failed batch. */
  lemma CooledDownTokenUndoesTheCycle()
    ensures CycleResult(CooledPlan(), ONE_COOLED_DOWN, None) == Err(Combined(REQUALIFICATION))
  {
    var plan, db := CooledPlan(), ONE_COOLED_DOWN;
    CooledTokenIsHeld(InitialPlan(plan), db.tracking);
    FailedHandoffIsUndoneExactly(plan, db);
  }
}
