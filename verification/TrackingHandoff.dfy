/** The initial two-slot tracking handoff: both slots, or, through a savepoint, neither. */
module TrackingHandoff {
  import opened Common
  import opened SchedulerParity

  const SCHEDULER_WORK_CEILING := 11
  const HANDOFF_CEILING := 2

  // ---- Tracking tables ----

  datatype QueueStatus =
    | Queued | Active | Paused
    | Cooldown(until: Option<int>)
    | Skipped | Archived
    | UnknownStatus(text: string)

  datatype QueueRow = QueueRow(mint: string, pool: string, status: QueueStatus)

  datatype SlotState = Selected | WindowState(text: string) | SlotCooldown | SlotArchived | ManualReview | SlotFailed

  datatype SlotRow = SlotRow(id: string, mint: string, pool: string, lifecycle: string, queue: Option<nat>, state: SlotState)

  datatype ItemRow = ItemRow(selectionBatch: string, mint: string, pool: string)

  datatype LinkRow = LinkRow(batch: string, selectionBatch: string, item: nat, candidate: string, slotId: string, firstWindowJob: nat)

  datatype SlotKey = SlotKey(cycle: string, ordinal: int)

  /** Every table the handoff writes besides work rows and jobs. Row numbers are positions. */
  datatype Tracking = Tracking(
    tokens: set<string>,
    pairs: map<string, string>,
    selectionBatches: map<string, nat>,
    batchLinks: map<string, string>,
    queue: seq<QueueRow>,
    slots: map<SlotKey, SlotRow>,
    items: seq<ItemRow>,
    links: seq<LinkRow>)

  datatype BatchRow = BatchRow(content: nat, failure: Option<string>)

  class Connection {
    const ledger: Ledger
    var batches: map<string, BatchRow>
    var tracking: Tracking

    constructor ()
      ensures fresh(ledger) && ledger.work == map[] && ledger.jobs == [] && batches == map[]
      ensures tracking == Tracking({}, map[], map[], map[], [], map[], [], [])
    {
      ledger := new Ledger();
      batches := map[];
      tracking := Tracking({}, map[], map[], map[], [], map[], [], []);
    }
  }

  class Usage {
    var schedulerWork: nat
    var handoffs: nat

    constructor ()
      ensures schedulerWork == 0 && handoffs == 0
    {
      schedulerWork, handoffs := 0, 0;
    }
  }

  // ---- Plan of one cycle, as far as the handoff reads it ----

  datatype Fault = Combined(code: string) | Persistence | OtherException

  datatype Mode = Initial | Replacement

  datatype Selection = Selection(id: string, mint: string, market: string, lifecycle: string, originConfirmed: bool, freshEvidence: bool)

  /** The points of one slot handoff at which anything may still go wrong. */
  datatype HandoffStep = BeforeIdentity | AfterIdentity | AfterClaim | AfterJob | AfterSlot | AfterLink

  datatype HandoffPlan = HandoffPlan(
    batch: string, cycle: string, selectionBatch: string, mode: Mode, now: int,
    selected: seq<Selection>, vacancies: seq<int>, fault: (nat, HandoffStep) -> Option<Fault>, preflightFault: Option<string>)

  /** The text after the last colon. */
  function PoolOf(market: string): string {
    if market == [] || market[|market| - 1] == ':' then [] else PoolOf(market[..|market| - 1]) + [market[|market| - 1]]
  }

  function SlotWork(ordinal: int): WorkType {
    if ordinal == 1 then HandoffSlot1 else HandoffSlot2
  }

  // ---- Assessment of an exact token and pair ----

  datatype Assessment = Fresh | Requalifiable | Refused(code: string)

  function LatestRow(queue: seq<QueueRow>, mint: string, pool: string): (r: Option<nat>)
    ensures r.Some? ==> r.value < |queue| && queue[r.value].mint == mint && queue[r.value].pool == pool
                        && forall j :: r.value < j < |queue| ==> !(queue[j].mint == mint && queue[j].pool == pool)
    ensures r.None? ==> forall j :: 0 <= j < |queue| ==> !(queue[j].mint == mint && queue[j].pool == pool)
  {
    if queue == [] then None
    else if queue[|queue| - 1].mint == mint && queue[|queue| - 1].pool == pool then Some(|queue| - 1)
    else LatestRow(queue[..|queue| - 1], mint, pool)
  }

  function Assess(queue: seq<QueueRow>, mint: string, pool: string, now: int): Assessment {
    var latest := LatestRow(queue, mint, pool);
    if latest.None? then Fresh
    else
      match queue[latest.value].status
      case Queued | Active | Paused => Refused("DUPLICATE_ACTIVE_TRACKING")
      case Cooldown(until) => if until.Some? && now >= until.value then Requalifiable else Refused("COOLDOWN_REOPEN_REQUIRED")
      case Skipped | Archived => Refused("TERMINAL_TRACKING_STATE")
      case UnknownStatus(_) => Refused("UNSUPPORTED_TRACKING_QUEUE_STATE")
  }

  predicate MayClaim(queue: seq<QueueRow>, c: Selection, now: int) {
    var a := Assess(queue, c.mint, PoolOf(c.market), now);
    a.Fresh? || (a.Requalifiable? && c.freshEvidence)
  }

  predicate Vacated(state: SlotState) {
    state in {SlotFailed, SlotCooldown, SlotArchived, ManualReview}
  }

  // ---- What one successful slot handoff writes ----

  function WithIdentity(t: Tracking, mint: string, pool: string): Tracking {
    t.(tokens := t.tokens + {mint}, pairs := if pool in t.pairs then t.pairs else t.pairs[pool := mint])
  }

  function WithClaim(t: Tracking, mint: string, pool: string): Tracking {
    t.(queue := t.queue + [QueueRow(mint, pool, Queued)])
  }

  function SlotId(plan: HandoffPlan, ordinal: int): string {
    "slot-" + plan.cycle + "-" + if ordinal == 1 then "1" else "2"
  }

  /** A slot row that is already there keeps every field, also when it was vacated. */
  function WithSlot(plan: HandoffPlan, t: Tracking, c: Selection, ordinal: int, queueId: nat): Tracking {
    var key := SlotKey(plan.cycle, ordinal);
    if key in t.slots then t
    else t.(slots := t.slots[key := SlotRow(SlotId(plan, ordinal), c.mint, PoolOf(c.market), c.lifecycle, Some(queueId), Selected)])
  }

  function WithItem(plan: HandoffPlan, t: Tracking, c: Selection, slotId: string, job: nat): Tracking {
    t.(items := t.items + [ItemRow(plan.selectionBatch, c.mint, PoolOf(c.market))],
    links := t.links + [LinkRow(plan.batch, plan.selectionBatch, |t.items|, c.id, slotId, job)])
  }

  function SlotTracking(plan: HandoffPlan, t: Tracking, c: Selection, ordinal: int, job: nat): Tracking {
    var pool := PoolOf(c.market);
    var slotted := WithSlot(plan, WithClaim(WithIdentity(t, c.mint, pool), c.mint, pool), c, ordinal, |t.queue|);
    WithItem(plan, slotted, c, slotted.slots[SlotKey(plan.cycle, ordinal)].id, job)
  }

  function FirstWindowJob(c: Selection, queueId: nat): JobRow {
    JobRow(FirstWindow(c.mint, PoolOf(c.market)), Some(queueId), JobPending)
  }

  /** Table rules the slot insert is checked against: ordinals 1 and 2, one slot per token in a
      cycle, and a pair that belongs to its token. */
  predicate SlotInsertAllowed(plan: HandoffPlan, t: Tracking, mint: string, pool: string, ordinal: int) {
    && ordinal in {1, 2}
    && (forall key :: key in t.slots && key.cycle == plan.cycle ==> t.slots[key].mint != mint)
    && pool in t.pairs && t.pairs[pool] == mint
  }

  predicate LinkAllowed(plan: HandoffPlan, t: Tracking, c: Selection) {
    forall k :: 0 <= k < |t.links| && t.links[k].batch == plan.batch ==> t.links[k].candidate != c.id
  }

  // ---- Work rows ----

  /** A running work row that owns a job of its own name; an identical row may already have been there. */
  ghost predicate WorkOpened(work: WorkTable, jobs: JobTable, workAfter: WorkTable, jobsAfter: JobTable, id: WorkId) {
    && id in workAfter && workAfter[id].state == WorkRunning && workAfter[id].cause == None
    && workAfter == work[id := workAfter[id]]
    && (id in work ==> work[id] == workAfter[id])
    && (jobsAfter == jobs || jobsAfter == jobs + [JobRow(DiscoveryJob(id.kind, id.batch), None, JobPending)])
    && workAfter[id].job < |jobsAfter| && jobsAfter[workAfter[id].job].name == DiscoveryJob(id.kind, id.batch)
    && (Parity(work, jobs) ==> Parity(workAfter, jobsAfter))
  }

  /** The jobs once a work row of this name has asked for one: an active job is reused. */
  function WithJob(jobs: JobTable, name: JobName): (r: JobTable)
    ensures NewestNamed(r, name).Some?
  {
    if ActiveDuplicate(jobs, name, None) then
      ActiveDuplicateIsNewest(jobs, name, None);
      jobs
    else jobs + [JobRow(name, None, JobPending)]
  }

  /** The row a stage opens with: running, and linked to the newest job of its name. */
  function NewRow(jobs: JobTable, id: WorkId): WorkRow {
    WorkRow(NewestNamed(WithJob(jobs, NameOf(id)), NameOf(id)).value, WorkRunning, None)
  }

  function NameOf(id: WorkId): JobName {
    DiscoveryJob(id.kind, id.batch)
  }

  /** Whether a work row may be opened: within the ceiling, and no different row of that name exists. */
  function OpenFault(work: WorkTable, jobs: JobTable, schedulerWork: nat, id: WorkId): Option<Fault> {
    if schedulerWork >= SCHEDULER_WORK_CEILING then Some(Combined("SCHEDULER_WORK_CEILING"))
    else if id in work && work[id] != NewRow(jobs, id) then Some(Persistence)
    else None
  }

  /** Charges the scheduler ceiling, enqueues (or finds) the job and inserts the work row; an
      identical row is a no-op and a different one is a conflict. */
  method CreateWork(conn: Connection, usage: Usage, kind: WorkType, batch: string) returns (r: Result<WorkId, Fault>)
    modifies conn.ledger, usage`schedulerWork
    ensures var fault := OpenFault(old(conn.ledger.work), old(conn.ledger.jobs), old(usage.schedulerWork), WorkId(kind, batch));
            r == if fault.Some? then Err(fault.value) else Ok(WorkId(kind, batch))
    ensures r.Err? ==> conn.ledger.work == old(conn.ledger.work)
    ensures r.Err? && r.error.Combined? ==> conn.ledger.jobs == old(conn.ledger.jobs) && usage.schedulerWork == old(usage.schedulerWork)
    ensures r.Ok? ==> conn.ledger.work == old(conn.ledger.work)[r.value := NewRow(old(conn.ledger.jobs), r.value)]
    ensures r.Ok? ==> conn.ledger.jobs == WithJob(old(conn.ledger.jobs), NameOf(r.value))
    ensures r.Ok? ==> usage.schedulerWork == old(usage.schedulerWork) + 1
    ensures r.Ok? ==> WorkOpened(old(conn.ledger.work), old(conn.ledger.jobs), conn.ledger.work, conn.ledger.jobs, r.value)
    ensures old(usage.schedulerWork) <= SCHEDULER_WORK_CEILING ==> usage.schedulerWork <= SCHEDULER_WORK_CEILING
  {
    if usage.schedulerWork + 1 > SCHEDULER_WORK_CEILING {
      return Err(Combined("SCHEDULER_WORK_CEILING"));
    }
    usage.schedulerWork := usage.schedulerWork + 1;
    var ledger := conn.ledger;
    var id, name := WorkId(kind, batch), DiscoveryJob(kind, batch);
    ghost var work, jobs := ledger.work, ledger.jobs;
    var job: nat;
    if ActiveDuplicate(ledger.jobs, name, None) {
      ActiveDuplicateIsNewest(jobs, name, None);
      job := NewestNamed(ledger.jobs, name).value;
    } else {
      job := |ledger.jobs|;
      ledger.jobs := ledger.jobs + [JobRow(name, None, JobPending)];
    }
    var row := WorkRow(job, WorkRunning, None);
    if id in ledger.work {
      if ledger.work[id] != row {
        return Err(Persistence);
      }
    } else {
      ledger.work := ledger.work[id := row];
    }
    if Parity(work, jobs) {
      OpenedKeepsParity(work, jobs, ledger.jobs, id, row);
    }
    return Ok(id);
  }

  lemma OpenedKeepsParity(work: WorkTable, jobs: JobTable, after: JobTable, id: WorkId, row: WorkRow)
    requires Parity(work, jobs) && Open(row.state) && (id in work ==> work[id] == row)
    requires var name := DiscoveryJob(id.kind, id.batch);
             if ActiveDuplicate(jobs, name, None) then after == jobs && NewestNamed(jobs, name) == Some(row.job)
             else after == jobs + [JobRow(name, None, JobPending)] && row.job == |jobs|
    ensures Parity(work[id := row], after)
  {
    var name := DiscoveryJob(id.kind, id.batch);
    if ActiveDuplicate(jobs, name, None) {
      ActiveDuplicateIsNewest(jobs, name, None);
    } else {
      forall j | 0 <= j < |jobs| && jobs[j].name == name ensures !ActiveJob(jobs[j].status) {
        assert jobs[j].target == None;
      }
      EnqueueKeepsParity(work, jobs, JobRow(name, None, JobPending));
    }
    if id in work {
      assert work[id := row] == work;
    } else {
      OpeningKeepsParity(work, after, id, row);
    }
  }

  function Ended(work: WorkTable, id: WorkId, state: WorkState, cause: string): WorkTable {
    if id in work then work[id := WorkRow(work[id].job, state, Some(cause))] else work
  }

  function JobsEnded(work: WorkTable, jobs: JobTable, id: WorkId, state: WorkState): JobTable {
    if id in work then Driven(jobs, work[id].job, state) else jobs
  }

  /** Ends a work row and drives its job to the same outcome. */
  method TerminalizeWork(conn: Connection, id: WorkId, state: WorkState, cause: string)
    requires ActionFor(state).Some?
    modifies conn.ledger
    ensures conn.ledger.work == Ended(old(conn.ledger.work), id, state, cause)
    ensures conn.ledger.jobs == JobsEnded(old(conn.ledger.work), old(conn.ledger.jobs), id, state)
    ensures Parity(old(conn.ledger.work), old(conn.ledger.jobs)) && id in old(conn.ledger.work) && Open(old(conn.ledger.work)[id].state) ==>
              Parity(conn.ledger.work, conn.ledger.jobs)
  {
    var ledger := conn.ledger;
    if id !in ledger.work {
      return;
    }
    ghost var work, jobs := ledger.work, ledger.jobs;
    ledger.work := ledger.work[id := WorkRow(ledger.work[id].job, state, Some(cause))];
    var _ := ledger.TerminalizeSchedulerJobForWork(ledger.work[id].job, state);
    if Parity(work, jobs) && Open(work[id].state) {
      EndingKeepsParity(work, jobs, id, state, Some(cause));
    }
  }

  // ---- One slot ----

  /** Everything a successful slot handoff did. */
  ghost predicate SlotDone(
    plan: HandoffPlan, c: Selection, ordinal: int, id: WorkId,
    t: Tracking, work: WorkTable, jobs: JobTable, tAfter: Tracking, workAfter: WorkTable, jobsAfter: JobTable)
  {
    && MayClaim(t.queue, c, plan.now)
    && (var key := SlotKey(plan.cycle, ordinal);
        if key in t.slots then Vacated(t.slots[key].state) || (plan.mode == Replacement && t.slots[key].mint == c.mint)
        else SlotInsertAllowed(plan, WithIdentity(t, c.mint, PoolOf(c.market)), c.mint, PoolOf(c.market), ordinal))
    && tAfter == SlotTracking(plan, t, c, ordinal, |jobs|)
    && workAfter == Ended(work, id, WorkSucceeded, "HANDOFF_COMPLETE")
    && jobsAfter == JobsEnded(work, jobs + [FirstWindowJob(c, |t.queue|)], id, WorkSucceeded)
  }

  /** The first thing, if any, that stops the claim of one slot. */
  function ClaimFault(plan: HandoffPlan, index: nat, c: Selection, ordinal: int, t: Tracking, jobs: JobTable): Option<Fault> {
    var pool := PoolOf(c.market);
    var a := Assess(t.queue, c.mint, pool, plan.now);
    var slot := SlotRefusal(plan, WithIdentity(t, c.mint, pool), c, ordinal);
    if plan.fault(index, BeforeIdentity).Some? then plan.fault(index, BeforeIdentity)
    else if plan.fault(index, AfterIdentity).Some? then plan.fault(index, AfterIdentity)
    else if a.Refused? then Some(Combined(a.code))
    else if a.Requalifiable? && !c.freshEvidence then Some(Combined("COOLDOWN_REQUALIFICATION_REQUIRED"))
    else if plan.fault(index, AfterClaim).Some? then plan.fault(index, AfterClaim)
    else if ActiveDuplicate(jobs, FirstWindow(c.mint, pool), Some(|t.queue|)) then Some(Combined("FIRST_15M_JOB_FAILED"))
    else if plan.fault(index, AfterJob).Some? then plan.fault(index, AfterJob)
    else if slot.Some? then slot
    else if plan.fault(index, AfterSlot).Some? then plan.fault(index, AfterSlot)
    else if !LinkAllowed(plan, t, c) then Some(Persistence)
    else plan.fault(index, AfterLink)
  }

  function SlotFault(plan: HandoffPlan, index: nat, c: Selection, ordinal: int, t: Tracking, jobs: JobTable, handoffs: nat): Option<Fault> {
    var claim := ClaimFault(plan, index, c, ordinal, t, jobs);
    if claim.Some? then claim else if handoffs + 1 > HANDOFF_CEILING then Some(Combined("HANDOFF_CEILING")) else None
  }

  /** A slot that another token holds is never taken, and an initial slot only when it was vacated. */
  function SlotRefusal(plan: HandoffPlan, t: Tracking, c: Selection, ordinal: int): Option<Fault> {
    var key := SlotKey(plan.cycle, ordinal);
    if key !in t.slots then
      if SlotInsertAllowed(plan, t, c.mint, PoolOf(c.market), ordinal) then None else Some(OtherException)
    else if Vacated(t.slots[key].state) then None
    else if t.slots[key].mint != c.mint then Some(Combined("HEALTHY_SLOT_MUTATION"))
    else if plan.mode == Initial then Some(Combined("CONFLICTING_SLOT"))
    else None
  }

  /** Takes the slot of an ordinal: a new row, or the row that is already there. */
  method TakeSlot(conn: Connection, plan: HandoffPlan, c: Selection, ordinal: int, queueId: nat) returns (f: Option<Fault>)
    modifies conn`tracking
    ensures f == SlotRefusal(plan, old(conn.tracking), c, ordinal)
    ensures f.None? ==> conn.tracking == WithSlot(plan, old(conn.tracking), c, ordinal, queueId) && SlotKey(plan.cycle, ordinal) in conn.tracking.slots
  {
    var key := SlotKey(plan.cycle, ordinal);
    if key in conn.tracking.slots {
      var slot := conn.tracking.slots[key];
      if !Vacated(slot.state) {
        if slot.mint != c.mint {
          return Some(Combined("HEALTHY_SLOT_MUTATION"));
        }
        if plan.mode == Initial {
          return Some(Combined("CONFLICTING_SLOT"));
        }
      }
      return None;
    }
    if !SlotInsertAllowed(plan, conn.tracking, c.mint, PoolOf(c.market), ordinal) {
      return Some(OtherException);
    }
    conn.tracking := WithSlot(plan, conn.tracking, c, ordinal, queueId);
    return None;
  }

  /** The claim of one slot: identity, queue row, first-window job, slot, item and link. */
  method ClaimSlot(conn: Connection, plan: HandoffPlan, index: nat, c: Selection, ordinal: int) returns (f: Option<Fault>)
    modifies conn`tracking, conn.ledger`jobs
    ensures f == ClaimFault(plan, index, c, ordinal, old(conn.tracking), old(conn.ledger.jobs))
    ensures f.None? ==> conn.tracking == SlotTracking(plan, old(conn.tracking), c, ordinal, |old(conn.ledger.jobs)|)
    ensures f.None? ==> conn.ledger.jobs == old(conn.ledger.jobs) + [FirstWindowJob(c, |old(conn.tracking.queue)|)]
  {
    var pool, key := PoolOf(c.market), SlotKey(plan.cycle, ordinal);
    if plan.fault(index, BeforeIdentity).Some? {
      return plan.fault(index, BeforeIdentity);
    }
    conn.tracking := WithIdentity(conn.tracking, c.mint, pool);
    if plan.fault(index, AfterIdentity).Some? {
      return plan.fault(index, AfterIdentity);
    }
    var assessment := Assess(conn.tracking.queue, c.mint, pool, plan.now);
    if assessment.Refused? {
      return Some(Combined(assessment.code));
    }
    if assessment.Requalifiable? && !c.freshEvidence {
      return Some(Combined("COOLDOWN_REQUALIFICATION_REQUIRED"));
    }
    var queueId := |conn.tracking.queue|;
    conn.tracking := WithClaim(conn.tracking, c.mint, pool);
    if plan.fault(index, AfterClaim).Some? {
      return plan.fault(index, AfterClaim);
    }
    if ActiveDuplicate(conn.ledger.jobs, FirstWindow(c.mint, pool), Some(queueId)) {
      return Some(Combined("FIRST_15M_JOB_FAILED"));
    }
    var job := |conn.ledger.jobs|;
    conn.ledger.jobs := conn.ledger.jobs + [FirstWindowJob(c, queueId)];
    if plan.fault(index, AfterJob).Some? {
      return plan.fault(index, AfterJob);
    }
    f := TakeSlot(conn, plan, c, ordinal, queueId);
    if f.Some? {
      return;
    }
    var slotId := conn.tracking.slots[key].id;
    if plan.fault(index, AfterSlot).Some? {
      return plan.fault(index, AfterSlot);
    }
    if !LinkAllowed(plan, conn.tracking, c) {
      return Some(Persistence);
    }
    conn.tracking := WithItem(plan, conn.tracking, c, slotId, job);
    return plan.fault(index, AfterLink);
  }

  method HandoffOneSlot(conn: Connection, usage: Usage, plan: HandoffPlan, index: nat, c: Selection, ordinal: int, id: WorkId)
    returns (f: Option<Fault>)
    modifies conn`tracking, conn.ledger, usage`handoffs
    ensures f == SlotFault(plan, index, c, ordinal, old(conn.tracking), old(conn.ledger.jobs), old(usage.handoffs))
    ensures f.None? ==> SlotDone(plan, c, ordinal, id, old(conn.tracking), old(conn.ledger.work), old(conn.ledger.jobs),
                                 conn.tracking, conn.ledger.work, conn.ledger.jobs)
    ensures f.None? ==> usage.handoffs == old(usage.handoffs) + 1 <= HANDOFF_CEILING
    ensures f.None? && Parity(old(conn.ledger.work), old(conn.ledger.jobs)) && id in old(conn.ledger.work) && Open(old(conn.ledger.work)[id].state) ==>
              Parity(conn.ledger.work, conn.ledger.jobs)
  {
    ghost var work, jobs, queueId := conn.ledger.work, conn.ledger.jobs, |conn.tracking.queue|;
    f := ClaimSlot(conn, plan, index, c, ordinal);
    if f.Some? {
      return;
    }
    usage.handoffs := usage.handoffs + 1;
    if usage.handoffs > HANDOFF_CEILING {
      return Some(Combined("HANDOFF_CEILING"));
    }
    if Parity(work, jobs) {
      EnqueueKeepsParity(work, jobs, FirstWindowJob(c, queueId));
    }
    TerminalizeWork(conn, id, WorkSucceeded, "HANDOFF_COMPLETE");
    return None;
  }

  // ---- Both slots or neither ----

  /** The first reason, if any, not to start the initial handoff. */
  function Preflight(plan: HandoffPlan, t: Tracking, schedulerWork: nat, handoffs: nat): Option<string> {
    if |plan.selected| != 2 || plan.vacancies != [1, 2] then Some("HANDOFF_PREFLIGHT_FAILED")
    else if handoffs + 2 > HANDOFF_CEILING then Some("HANDOFF_CEILING")
    else if schedulerWork + 2 > SCHEDULER_WORK_CEILING then Some("SCHEDULER_WORK_CEILING")
    else if exists c :: c in plan.selected && (c.mint == "" || c.market == "" || !c.originConfirmed) then Some("HANDOFF_PREFLIGHT_FAILED")
    else if exists ordinal | ordinal in {1, 2} :: SlotKey(plan.cycle, ordinal) in t.slots && !Vacated(t.slots[SlotKey(plan.cycle, ordinal)].state)
      then Some("CONFLICTING_SLOT")
    else None
  }

  function WithSelectionBatch(plan: HandoffPlan, t: Tracking): Tracking {
    t.(selectionBatches := t.selectionBatches[plan.selectionBatch := |plan.selected|],
    batchLinks := t.batchLinks[plan.selectionBatch := plan.batch])
  }

  function TwoSlotTracking(plan: HandoffPlan, t: Tracking, firstJob: nat): Tracking
    requires |plan.selected| == 2
  {
    SlotTracking(plan, SlotTracking(plan, WithSelectionBatch(plan, t), plan.selected[0], 1, firstJob), plan.selected[1], 2, firstJob + 1)
  }

  function HandoffIds(batch: string): set<WorkId> {
    {WorkId(HandoffSlot1, batch), WorkId(HandoffSlot2, batch)}
  }

  function HandoffNames(batch: string): set<JobName> {
    {DiscoveryJob(HandoffSlot1, batch), DiscoveryJob(HandoffSlot2, batch)}
  }

  /** From one job table to a later one, terminal jobs and jobs outside the handoff names are
      untouched, and no job is renamed. */
  ghost predicate KeepsOthers(plan: HandoffPlan, jobs: JobTable, after: JobTable) {
    && |jobs| <= |after|
    && forall j :: 0 <= j < |jobs| ==> after[j].name == jobs[j].name && after[j].target == jobs[j].target
                                       && (jobs[j].name !in HandoffNames(plan.batch) || !ActiveJob(jobs[j].status) ==> after[j] == jobs[j])
  }

  /** Outside the two handoff rows of the batch, work rows and jobs are as they were; a terminal job
      is never rewritten; jobs were only added, and only under the given names. */
  ghost predicate OnlyHandoffWork(plan: HandoffPlan, work: WorkTable, jobs: JobTable, workAfter: WorkTable, jobsAfter: JobTable, windows: nat) {
    && workAfter.Keys == work.Keys + HandoffIds(plan.batch)
    && (forall id :: id in work && id !in HandoffIds(plan.batch) ==> workAfter[id] == work[id])
    && |jobs| + windows <= |jobsAfter|
    && KeepsOthers(plan, jobs, jobsAfter)
    && (forall j :: |jobs| <= j < |jobsAfter| - windows ==> jobsAfter[j].name in HandoffNames(plan.batch))
  }

  ghost predicate BothEnded(plan: HandoffPlan, workAfter: WorkTable, state: WorkState, cause: string) {
    forall id :: id in HandoffIds(plan.batch) ==> id in workAfter && workAfter[id].state == state && workAfter[id].cause == Some(cause)
  }

  method ValidateInitialHandoffPreflight(conn: Connection, usage: Usage, plan: HandoffPlan) returns (f: Option<string>)
    ensures f == Preflight(plan, conn.tracking, usage.schedulerWork, usage.handoffs)
  {
    if |plan.selected| != 2 || plan.vacancies != [1, 2] {
      return Some("HANDOFF_PREFLIGHT_FAILED");
    }
    if usage.handoffs + 2 > HANDOFF_CEILING {
      return Some("HANDOFF_CEILING");
    }
    if usage.schedulerWork + 2 > SCHEDULER_WORK_CEILING {
      return Some("SCHEDULER_WORK_CEILING");
    }
    for i := 0 to |plan.selected|
      invariant forall k :: 0 <= k < i ==> plan.selected[k].mint != "" && plan.selected[k].market != "" && plan.selected[k].originConfirmed
    {
      var c := plan.selected[i];
      if c.mint == "" || c.market == "" || !c.originConfirmed {
        assert c in plan.selected;
        return Some("HANDOFF_PREFLIGHT_FAILED");
      }
    }
    for ordinal := 1 to 3
      invariant forall k | k in {1, 2} :: k < ordinal && SlotKey(plan.cycle, k) in conn.tracking.slots ==> Vacated(conn.tracking.slots[SlotKey(plan.cycle, k)].state)
    {
      var key := SlotKey(plan.cycle, ordinal);
      if key in conn.tracking.slots && !Vacated(conn.tracking.slots[key].state) {
        assert ordinal in {1, 2};
        return Some("CONFLICTING_SLOT");
      }
    }
    return None;
  }

  /** The first slot was handed off, and then, from the state it left, the second. */
  ghost predicate BothSlotsDone(
    plan: HandoffPlan, t: Tracking, work: WorkTable, jobs: JobTable, tAfter: Tracking, workAfter: WorkTable, jobsAfter: JobTable)
  {
    && |plan.selected| == 2
    && exists t1, w1, j1 ::
         && SlotDone(plan, plan.selected[0], 1, WorkId(HandoffSlot1, plan.batch), WithSelectionBatch(plan, t), work, jobs, t1, w1, j1)
         && SlotDone(plan, plan.selected[1], 2, WorkId(HandoffSlot2, plan.batch), t1, w1, j1, tAfter, workAfter, jobsAfter)
  }

  /** The first thing, if any, that stops the two handoffs inside the savepoint; the second slot is
      judged on what the first one left. */
  function PairFault(plan: HandoffPlan, t: Tracking, work: WorkTable, jobs: JobTable, handoffs: nat): Option<Fault>
    requires |plan.selected| == 2
  {
    var s, a, id := WithSelectionBatch(plan, t), plan.selected[0], WorkId(HandoffSlot1, plan.batch);
    var first := SlotFault(plan, 0, a, 1, s, jobs, handoffs);
    if plan.selectionBatch in t.selectionBatches then Some(OtherException)
    else if plan.selectionBatch in t.batchLinks && t.batchLinks[plan.selectionBatch] != plan.batch then Some(Persistence)
    else if first.Some? then first
    else SlotFault(plan, 1, plan.selected[1], 2, SlotTracking(plan, s, a, 1, |jobs|),
                   JobsEnded(work, jobs + [FirstWindowJob(a, |t.queue|)], id, WorkSucceeded), handoffs + 1)
  }

  /** The mutations inside the savepoint. */
  method HandoffBothSlots(conn: Connection, usage: Usage, plan: HandoffPlan, first: WorkId, second: WorkId) returns (f: Option<Fault>)
    requires |plan.selected| == 2 && plan.vacancies == [1, 2]
    requires first == WorkId(HandoffSlot1, plan.batch) && second == WorkId(HandoffSlot2, plan.batch)
    modifies conn`tracking, conn.ledger, usage`handoffs
    ensures f == PairFault(plan, old(conn.tracking), old(conn.ledger.work), old(conn.ledger.jobs), old(usage.handoffs))
    ensures f.None? ==> BothSlotsDone(plan, old(conn.tracking), old(conn.ledger.work), old(conn.ledger.jobs),
                                      conn.tracking, conn.ledger.work, conn.ledger.jobs)
    ensures f.None? ==> usage.handoffs == old(usage.handoffs) + 2 <= HANDOFF_CEILING
    ensures f.None? && Parity(old(conn.ledger.work), old(conn.ledger.jobs))
            && (forall id :: id in HandoffIds(plan.batch) ==> id in old(conn.ledger.work) && Open(old(conn.ledger.work)[id].state)) ==>
              Parity(conn.ledger.work, conn.ledger.jobs)
  {
    if plan.selectionBatch in conn.tracking.selectionBatches {
      return Some(OtherException);
    }
    if plan.selectionBatch in conn.tracking.batchLinks && conn.tracking.batchLinks[plan.selectionBatch] != plan.batch {
      return Some(Persistence);
    }
    conn.tracking := WithSelectionBatch(plan, conn.tracking);
    f := HandoffOneSlot(conn, usage, plan, 0, plan.selected[0], 1, first);
    if f.Some? {
      return;
    }
    ghost var t1, w1, j1 := conn.tracking, conn.ledger.work, conn.ledger.jobs;
    f := HandoffOneSlot(conn, usage, plan, 1, plan.selected[1], 2, second);
    if f.Some? {
      return;
    }
    assert SlotDone(plan, plan.selected[1], 2, second, t1, w1, j1, conn.tracking, conn.ledger.work, conn.ledger.jobs);
  }

  /** The tables of a completed handoff, and that each claim was allowed when it was made. */
  ghost predicate TrackingHandedOff(plan: HandoffPlan, t: Tracking, tAfter: Tracking, firstJob: int) {
    && |plan.selected| == 2 && firstJob >= 0
    && tAfter == TwoSlotTracking(plan, t, firstJob)
    && |tAfter.queue| == |t.queue| + 2
    && MayClaim(t.queue, plan.selected[0], plan.now) && MayClaim(tAfter.queue[..|t.queue| + 1], plan.selected[1], plan.now)
  }

  /** Everything a completed initial handoff did, from the state before its work rows existed. */
  ghost predicate BothHandedOff(
    plan: HandoffPlan, t: Tracking, work: WorkTable, jobs: JobTable, tAfter: Tracking, workAfter: WorkTable, jobsAfter: JobTable)
  {
    && |plan.selected| == 2
    && OnlyHandoffWork(plan, work, jobs, workAfter, jobsAfter, 2)
    && BothEnded(plan, workAfter, WorkSucceeded, "HANDOFF_COMPLETE")
    && jobsAfter[|jobsAfter| - 2] == FirstWindowJob(plan.selected[0], |t.queue|)
    && jobsAfter[|jobsAfter| - 1] == FirstWindowJob(plan.selected[1], |t.queue| + 1)
    && TrackingHandedOff(plan, t, tAfter, |jobsAfter| - 2)
  }

  /** What is left of a handoff that failed after its work rows were created: the two rows and
      their jobs, failed with the cause. */
  ghost predicate NeitherHandedOff(
    plan: HandoffPlan, work: WorkTable, jobs: JobTable, workAfter: WorkTable, jobsAfter: JobTable, cause: string)
  {
    && OnlyHandoffWork(plan, work, jobs, workAfter, jobsAfter, 0)
    && BothEnded(plan, workAfter, WorkFailed, cause)
    && (forall id :: id in HandoffIds(plan.batch) && workAfter[id].job < |jobsAfter| ==> !ActiveJob(jobsAfter[workAfter[id].job].status))
  }

  lemma OpenedOnly(plan: HandoffPlan, work: WorkTable, jobs: JobTable, w1: WorkTable, j1: JobTable, w2: WorkTable, j2: JobTable)
    requires WorkOpened(work, jobs, w1, j1, WorkId(HandoffSlot1, plan.batch)) && WorkOpened(w1, j1, w2, j2, WorkId(HandoffSlot2, plan.batch))
    ensures OnlyHandoffWork(plan, work, jobs, w2, j2, 0) && HandoffRowsRun(plan, w2, j2)
  {
  }

  lemma SlotDoneJobs(
    plan: HandoffPlan, c: Selection, ordinal: int, id: WorkId,
    t: Tracking, work: WorkTable, jobs: JobTable, tAfter: Tracking, workAfter: WorkTable, jobsAfter: JobTable)
    requires SlotDone(plan, c, ordinal, id, t, work, jobs, tAfter, workAfter, jobsAfter)
    requires id in work && work[id].job < |jobs| && id in HandoffIds(plan.batch) && jobs[work[id].job].name in HandoffNames(plan.batch)
    ensures |jobsAfter| == |jobs| + 1 && jobsAfter[|jobs|] == FirstWindowJob(c, |t.queue|)
    ensures KeepsOthers(plan, jobs, jobsAfter)
  {
  }

  lemma SlotDoneQueue(
    plan: HandoffPlan, c: Selection, ordinal: int, id: WorkId,
    t: Tracking, work: WorkTable, jobs: JobTable, tAfter: Tracking, workAfter: WorkTable, jobsAfter: JobTable)
    requires SlotDone(plan, c, ordinal, id, t, work, jobs, tAfter, workAfter, jobsAfter)
    ensures tAfter.queue == t.queue + [QueueRow(c.mint, PoolOf(c.market), Queued)]
  {
  }

  lemma HandedOffTracking(
    plan: HandoffPlan, t: Tracking, work: WorkTable, jobs: JobTable, t1: Tracking, w1: WorkTable, j1: JobTable,
    t2: Tracking, w2: WorkTable, j2: JobTable)
    requires |plan.selected| == 2
    requires SlotDone(plan, plan.selected[0], 1, WorkId(HandoffSlot1, plan.batch), WithSelectionBatch(plan, t), work, jobs, t1, w1, j1)
    requires SlotDone(plan, plan.selected[1], 2, WorkId(HandoffSlot2, plan.batch), t1, w1, j1, t2, w2, j2)
    requires |j1| == |jobs| + 1 && |j2| == |jobs| + 2
    ensures TrackingHandedOff(plan, t, t2, |j2| - 2) && |t1.queue| == |t.queue| + 1
  {
    SlotDoneQueue(plan, plan.selected[0], 1, WorkId(HandoffSlot1, plan.batch), WithSelectionBatch(plan, t), work, jobs, t1, w1, j1);
    SlotDoneQueue(plan, plan.selected[1], 2, WorkId(HandoffSlot2, plan.batch), t1, w1, j1, t2, w2, j2);
    assert t2.queue[..|t.queue| + 1] == t1.queue;
  }

  lemma HandedOffWork(plan: HandoffPlan, work: WorkTable, w1: WorkTable, w2: WorkTable)
    requires forall id :: id in HandoffIds(plan.batch) ==> id in work
    requires w1 == Ended(work, WorkId(HandoffSlot1, plan.batch), WorkSucceeded, "HANDOFF_COMPLETE")
    requires w2 == Ended(w1, WorkId(HandoffSlot2, plan.batch), WorkSucceeded, "HANDOFF_COMPLETE")
    ensures w2.Keys == work.Keys && forall id :: id in work && id !in HandoffIds(plan.batch) ==> w2[id] == work[id]
    ensures BothEnded(plan, w2, WorkSucceeded, "HANDOFF_COMPLETE")
  {
  }

  lemma OnlyHandoffWorkGrows(plan: HandoffPlan, before: WorkTable, jobsBefore: JobTable, work: WorkTable, jobs: JobTable, w2: WorkTable, j2: JobTable)
    requires OnlyHandoffWork(plan, before, jobsBefore, work, jobs, 0)
    requires w2.Keys == work.Keys && forall id :: id in work && id !in HandoffIds(plan.batch) ==> w2[id] == work[id]
    requires KeepsOthers(plan, jobs, j2) && |j2| == |jobs| + 2
    ensures OnlyHandoffWork(plan, before, jobsBefore, w2, j2, 2)
  {
  }

  lemma KeepsOthersTrans(plan: HandoffPlan, a: JobTable, b: JobTable, c: JobTable)
    requires KeepsOthers(plan, a, b) && KeepsOthers(plan, b, c)
    ensures KeepsOthers(plan, a, c)
  {
  }

  lemma HandedOffJobs(
    plan: HandoffPlan, t: Tracking, work: WorkTable, jobs: JobTable, t1: Tracking, w1: WorkTable, j1: JobTable,
    t2: Tracking, w2: WorkTable, j2: JobTable)
    requires |plan.selected| == 2
    requires SlotDone(plan, plan.selected[0], 1, WorkId(HandoffSlot1, plan.batch), WithSelectionBatch(plan, t), work, jobs, t1, w1, j1)
    requires SlotDone(plan, plan.selected[1], 2, WorkId(HandoffSlot2, plan.batch), t1, w1, j1, t2, w2, j2)
    requires forall id :: id in HandoffIds(plan.batch) ==> id in work && work[id].job < |jobs| && jobs[work[id].job].name in HandoffNames(plan.batch)
    ensures KeepsOthers(plan, jobs, j2) && |j1| == |jobs| + 1 && |j2| == |jobs| + 2
    ensures j2[|j2| - 2] == FirstWindowJob(plan.selected[0], |t.queue|)
    ensures j2[|j2| - 1] == FirstWindowJob(plan.selected[1], |t.queue| + 1)
  {
    var first, second := WorkId(HandoffSlot1, plan.batch), WorkId(HandoffSlot2, plan.batch);
    SlotDoneJobs(plan, plan.selected[0], 1, first, WithSelectionBatch(plan, t), work, jobs, t1, w1, j1);
    assert w1[second].job == work[second].job;
    SlotDoneJobs(plan, plan.selected[1], 2, second, t1, w1, j1, t2, w2, j2);
    KeepsOthersTrans(plan, jobs, j1, j2);
    SlotDoneQueue(plan, plan.selected[0], 1, first, WithSelectionBatch(plan, t), work, jobs, t1, w1, j1);
    LastTwo(j2, |jobs|, FirstWindowJob(plan.selected[0], |t.queue|), FirstWindowJob(plan.selected[1], |t1.queue|));
  }

  lemma HandedOffRows(
    plan: HandoffPlan, t: Tracking, before: WorkTable, jobsBefore: JobTable, work: WorkTable, jobs: JobTable,
    t1: Tracking, w1: WorkTable, j1: JobTable, t2: Tracking, w2: WorkTable, j2: JobTable)
    requires |plan.selected| == 2
    requires OnlyHandoffWork(plan, before, jobsBefore, work, jobs, 0)
    requires SlotDone(plan, plan.selected[0], 1, WorkId(HandoffSlot1, plan.batch), WithSelectionBatch(plan, t), work, jobs, t1, w1, j1)
    requires SlotDone(plan, plan.selected[1], 2, WorkId(HandoffSlot2, plan.batch), t1, w1, j1, t2, w2, j2)
    requires forall id :: id in HandoffIds(plan.batch) ==> id in work && work[id].job < |jobs| && jobs[work[id].job].name in HandoffNames(plan.batch)
    ensures |j1| == |jobs| + 1 && |j2| == |jobs| + 2
    ensures j2[|j2| - 2] == FirstWindowJob(plan.selected[0], |t.queue|)
    ensures j2[|j2| - 1] == FirstWindowJob(plan.selected[1], |t.queue| + 1)
    ensures OnlyHandoffWork(plan, before, jobsBefore, w2, j2, 2)
    ensures BothEnded(plan, w2, WorkSucceeded, "HANDOFF_COMPLETE")
  {
    HandedOffWork(plan, work, w1, w2);
    HandedOffJobs(plan, t, work, jobs, t1, w1, j1, t2, w2, j2);
    OnlyHandoffWorkGrows(plan, before, jobsBefore, work, jobs, w2, j2);
  }

  /** The two handoff rows run, and each owns a job of its own name. */
  ghost predicate HandoffRowsRun(plan: HandoffPlan, work: WorkTable, jobs: JobTable) {
    forall id :: id in HandoffIds(plan.batch) ==>
                   && id in work && work[id].state == WorkRunning
                   && work[id].job < |jobs| && jobs[work[id].job].name == DiscoveryJob(id.kind, id.batch)
  }

  lemma EndedJobKeepsOthers(plan: HandoffPlan, work: WorkTable, jobs: JobTable, id: WorkId, state: WorkState)
    requires id in work && id in HandoffIds(plan.batch) && ActionFor(state).Some?
    requires work[id].job < |jobs| && jobs[work[id].job].name == DiscoveryJob(id.kind, id.batch)
    ensures var after := JobsEnded(work, jobs, id, state);
            && KeepsOthers(plan, jobs, after) && |after| == |jobs| && !ActiveJob(after[work[id].job].status)
            && forall j :: 0 <= j < |jobs| && !ActiveJob(jobs[j].status) ==> !ActiveJob(after[j].status)
  {
  }

  lemma OnlyHandoffJobs(plan: HandoffPlan, before: WorkTable, jobsBefore: JobTable, work: WorkTable, jobs: JobTable, w2: WorkTable, j2: JobTable)
    requires OnlyHandoffWork(plan, before, jobsBefore, work, jobs, 0)
    requires w2.Keys == work.Keys && forall id :: id in work && id !in HandoffIds(plan.batch) ==> w2[id] == work[id]
    requires KeepsOthers(plan, jobs, j2) && |j2| == |jobs|
    ensures OnlyHandoffWork(plan, before, jobsBefore, w2, j2, 0)
  {
  }

  lemma BothFailed(plan: HandoffPlan, before: WorkTable, jobsBefore: JobTable, work: WorkTable, jobs: JobTable, cause: string)
    requires OnlyHandoffWork(plan, before, jobsBefore, work, jobs, 0) && HandoffRowsRun(plan, work, jobs)
    ensures var first, second := WorkId(HandoffSlot1, plan.batch), WorkId(HandoffSlot2, plan.batch);
            var w1, j1 := Ended(work, first, WorkFailed, cause), JobsEnded(work, jobs, first, WorkFailed);
            NeitherHandedOff(plan, before, jobsBefore, Ended(w1, second, WorkFailed, cause), JobsEnded(w1, j1, second, WorkFailed), cause)
  {
    var first, second := WorkId(HandoffSlot1, plan.batch), WorkId(HandoffSlot2, plan.batch);
    var w1, j1 := Ended(work, first, WorkFailed, cause), JobsEnded(work, jobs, first, WorkFailed);
    EndedJobKeepsOthers(plan, work, jobs, first, WorkFailed);
    assert w1[second] == work[second];
    EndedJobKeepsOthers(plan, w1, j1, second, WorkFailed);
    var w2, j2 := Ended(w1, second, WorkFailed, cause), JobsEnded(w1, j1, second, WorkFailed);
    KeepsOthersTrans(plan, jobs, j1, j2);
    OnlyHandoffJobs(plan, before, jobsBefore, work, jobs, w2, j2);
  }

  lemma RunningRowsNamed(plan: HandoffPlan, work: WorkTable, jobs: JobTable)
    requires HandoffRowsRun(plan, work, jobs)
    ensures forall id :: id in HandoffIds(plan.batch) ==> id in work && work[id].job < |jobs| && jobs[work[id].job].name in HandoffNames(plan.batch)
  {
  }

  lemma LastTwo<T>(s: seq<T>, n: nat, a: T, b: T)
    requires |s| == n + 2 && s[n] == a && s[n + 1] == b
    ensures s[|s| - 2] == a && s[|s| - 1] == b
  {
  }

  lemma BothSlotsRows(
    plan: HandoffPlan, t: Tracking, before: WorkTable, jobsBefore: JobTable, work: WorkTable, jobs: JobTable,
    t2: Tracking, w2: WorkTable, j2: JobTable)
    requires OnlyHandoffWork(plan, before, jobsBefore, work, jobs, 0) && HandoffRowsRun(plan, work, jobs)
    requires BothSlotsDone(plan, t, work, jobs, t2, w2, j2)
    ensures |j2| == |jobs| + 2
    ensures OnlyHandoffWork(plan, before, jobsBefore, w2, j2, 2)
    ensures BothEnded(plan, w2, WorkSucceeded, "HANDOFF_COMPLETE")
    ensures j2[|j2| - 2] == FirstWindowJob(plan.selected[0], |t.queue|)
    ensures j2[|j2| - 1] == FirstWindowJob(plan.selected[1], |t.queue| + 1)
    ensures TrackingHandedOff(plan, t, t2, |j2| - 2)
  {
    var t1, w1, j1 :|
      && SlotDone(plan, plan.selected[0], 1, WorkId(HandoffSlot1, plan.batch), WithSelectionBatch(plan, t), work, jobs, t1, w1, j1)
      && SlotDone(plan, plan.selected[1], 2, WorkId(HandoffSlot2, plan.batch), t1, w1, j1, t2, w2, j2);
    RunningRowsNamed(plan, work, jobs);
    HandedOffRows(plan, t, before, jobsBefore, work, jobs, t1, w1, j1, t2, w2, j2);
    HandedOffTracking(plan, t, work, jobs, t1, w1, j1, t2, w2, j2);
  }

  lemma BothSlotsHandedOff(
    plan: HandoffPlan, t: Tracking, before: WorkTable, jobsBefore: JobTable, work: WorkTable, jobs: JobTable,
    t2: Tracking, w2: WorkTable, j2: JobTable)
    requires OnlyHandoffWork(plan, before, jobsBefore, work, jobs, 0) && HandoffRowsRun(plan, work, jobs)
    requires BothSlotsDone(plan, t, work, jobs, t2, w2, j2)
    ensures BothHandedOff(plan, t, before, jobsBefore, t2, w2, j2) && HandoffWritten(plan, t, t2, j2)
  {
    BothSlotsRows(plan, t, before, jobsBefore, work, jobs, t2, w2, j2);
    TablesWritten(plan, t, t2, j2);
  }

  lemma TablesWritten(plan: HandoffPlan, t: Tracking, after: Tracking, jobs: JobTable)
    requires TrackingHandedOff(plan, t, after, |jobs| - 2)
    requires jobs[|jobs| - 2] == FirstWindowJob(plan.selected[0], |t.queue|) && jobs[|jobs| - 1] == FirstWindowJob(plan.selected[1], |t.queue| + 1)
    ensures HandoffWritten(plan, t, after, jobs)
  {
    BothSlotsAreWritten(plan, t, after, |jobs| - 2);
  }

  /** Fails both handoff rows and their jobs. */
  method FailHandoffWork(conn: Connection, plan: HandoffPlan, cause: string, ghost before: WorkTable, ghost jobsBefore: JobTable)
    requires OnlyHandoffWork(plan, before, jobsBefore, conn.ledger.work, conn.ledger.jobs, 0)
    requires HandoffRowsRun(plan, conn.ledger.work, conn.ledger.jobs)
    modifies conn.ledger
    ensures NeitherHandedOff(plan, before, jobsBefore, conn.ledger.work, conn.ledger.jobs, cause)
    ensures Parity(old(conn.ledger.work), old(conn.ledger.jobs)) ==> Parity(conn.ledger.work, conn.ledger.jobs)
  {
    BothFailed(plan, before, jobsBefore, conn.ledger.work, conn.ledger.jobs, cause);
    ghost var first, second := WorkId(HandoffSlot1, plan.batch), WorkId(HandoffSlot2, plan.batch);
    assert first in HandoffIds(plan.batch) && second in HandoffIds(plan.batch);
    TerminalizeWork(conn, WorkId(HandoffSlot1, plan.batch), WorkFailed, cause);
    TerminalizeWork(conn, WorkId(HandoffSlot2, plan.batch), WorkFailed, cause);
  }

  /** How a fault inside the savepoint is reported to the cycle. */
  function Reported(fault: Option<Fault>): Option<Fault> {
    if fault.None? || fault.value.Combined? then fault else Some(Combined("HANDOFF_DURING_SECOND"))
  }

  /** The cause that both handoff rows carry after a rollback. */
  function RollbackCause(fault: Option<Fault>): string {
    if fault.Some? && fault.value.Combined? then fault.value.code else "HANDOFF_ROLLED_BACK"
  }

  /** The part of the handoff inside the savepoint: committed in full, or undone in full. */
  method HandoffUnderSavepoint(conn: Connection, usage: Usage, plan: HandoffPlan, first: WorkId, second: WorkId, ghost work: WorkTable, ghost jobs: JobTable)
    returns (f: Option<Fault>)
    requires |plan.selected| == 2 && plan.vacancies == [1, 2]
    requires first == WorkId(HandoffSlot1, plan.batch) && second == WorkId(HandoffSlot2, plan.batch)
    requires OnlyHandoffWork(plan, work, jobs, conn.ledger.work, conn.ledger.jobs, 0)
    requires HandoffRowsRun(plan, conn.ledger.work, conn.ledger.jobs)
    modifies conn`tracking, conn.ledger, usage`handoffs
    ensures f == Reported(PairFault(plan, old(conn.tracking), old(conn.ledger.work), old(conn.ledger.jobs), old(usage.handoffs)))
    ensures f.None? ==> BothHandedOff(plan, old(conn.tracking), work, jobs, conn.tracking, conn.ledger.work, conn.ledger.jobs)
    ensures f.None? ==> HandoffWritten(plan, old(conn.tracking), conn.tracking, conn.ledger.jobs)
    ensures f.None? ==> usage.handoffs == old(usage.handoffs) + 2
    ensures f.Some? ==> f.value.Combined? && conn.tracking == old(conn.tracking) && usage.handoffs == old(usage.handoffs)
    ensures f.Some? ==>
              NeitherHandedOff(plan, work, jobs, conn.ledger.work, conn.ledger.jobs,
                               RollbackCause(PairFault(plan, old(conn.tracking), old(conn.ledger.work), old(conn.ledger.jobs), old(usage.handoffs))))
    ensures Parity(old(conn.ledger.work), old(conn.ledger.jobs)) ==> Parity(conn.ledger.work, conn.ledger.jobs)
  {
    var ledger := conn.ledger;
    var handoffsBefore := usage.handoffs;
    var savedTracking, savedWork, savedJobs := conn.tracking, ledger.work, ledger.jobs;
    var fault := HandoffBothSlots(conn, usage, plan, first, second);
    if fault.None? && usage.handoffs != handoffsBefore + 2 {
      fault := Some(Combined("INITIAL_HANDOFF_INCOMPLETE"));
    }
    if fault.None? {
      BothSlotsHandedOff(plan, savedTracking, work, jobs, savedWork, savedJobs, conn.tracking, ledger.work, ledger.jobs);
      return None;
    }
    conn.tracking, ledger.work, ledger.jobs := savedTracking, savedWork, savedJobs;
    usage.handoffs := handoffsBefore;
    FailHandoffWork(conn, plan, RollbackCause(fault), work, jobs);
    return Reported(fault);
  }

  /** Work rows and jobs once both handoff rows of a batch are open. */
  function BothOpened(batch: string, work: WorkTable, jobs: JobTable): (WorkTable, JobTable) {
    var first, second := WorkId(HandoffSlot1, batch), WorkId(HandoffSlot2, batch);
    var j1 := WithJob(jobs, NameOf(first));
    (work[first := NewRow(jobs, first)][second := NewRow(j1, second)], WithJob(j1, NameOf(second)))
  }

  function OpeningFault(batch: string, work: WorkTable, jobs: JobTable, schedulerWork: nat): Option<Fault> {
    var first, second := WorkId(HandoffSlot1, batch), WorkId(HandoffSlot2, batch);
    var fault := OpenFault(work, jobs, schedulerWork, first);
    if fault.Some? then fault
    else OpenFault(work[first := NewRow(jobs, first)], WithJob(jobs, NameOf(first)), schedulerWork + 1, second)
  }

  /** Opens both handoff rows, before the savepoint, so that a failed handoff stays visible. */
  method OpenHandoffWork(conn: Connection, usage: Usage, plan: HandoffPlan) returns (f: Option<Fault>)
    modifies conn.ledger, usage`schedulerWork
    ensures f == OpeningFault(plan.batch, old(conn.ledger.work), old(conn.ledger.jobs), old(usage.schedulerWork))
    ensures f.None? ==> (conn.ledger.work, conn.ledger.jobs) == BothOpened(plan.batch, old(conn.ledger.work), old(conn.ledger.jobs))
    ensures f.None? ==> usage.schedulerWork == old(usage.schedulerWork) + 2
    ensures f.None? ==> OnlyHandoffWork(plan, old(conn.ledger.work), old(conn.ledger.jobs), conn.ledger.work, conn.ledger.jobs, 0)
    ensures f.None? ==> HandoffRowsRun(plan, conn.ledger.work, conn.ledger.jobs)
    ensures f.None? && Parity(old(conn.ledger.work), old(conn.ledger.jobs)) ==> Parity(conn.ledger.work, conn.ledger.jobs)
    ensures old(usage.schedulerWork) <= SCHEDULER_WORK_CEILING ==> usage.schedulerWork <= SCHEDULER_WORK_CEILING
  {
    ghost var work, jobs := conn.ledger.work, conn.ledger.jobs;
    var first := CreateWork(conn, usage, HandoffSlot1, plan.batch);
    if first.Err? {
      return Some(first.error);
    }
    ghost var w1, j1 := conn.ledger.work, conn.ledger.jobs;
    var second := CreateWork(conn, usage, HandoffSlot2, plan.batch);
    if second.Err? {
      return Some(second.error);
    }
    OpenedOnly(plan, work, jobs, w1, j1, conn.ledger.work, conn.ledger.jobs);
    return None;
  }

  /** Whether the initial handoff ends before it has opened a work row. */
  predicate TurnedAway(plan: HandoffPlan, t: Tracking, schedulerWork: nat, handoffs: nat) {
    Preflight(plan, t, schedulerWork, handoffs).Some? || plan.preflightFault.Some?
  }

  /** The outcome of the initial handoff, decided by the state it starts from. */
  function HandoffFault(plan: HandoffPlan, t: Tracking, work: WorkTable, jobs: JobTable, schedulerWork: nat, handoffs: nat): Option<Fault> {
    var refused := Preflight(plan, t, schedulerWork, handoffs);
    if refused.Some? then Some(Combined(refused.value))
    else if plan.preflightFault.Some? then Some(Combined(plan.preflightFault.value))
    else
      var opening := OpeningFault(plan.batch, work, jobs, schedulerWork);
      if opening.Some? then opening
      else Reported(PairFault(plan, t, BothOpened(plan.batch, work, jobs).0, BothOpened(plan.batch, work, jobs).1, handoffs))
  }

  /** The cause on the rows of a rolled back handoff is the reported code, or says that an
      unexpected fault was rolled back. */
  predicate CauseReported(fault: Fault, cause: string) {
    fault == Combined(cause) || (cause == "HANDOFF_ROLLED_BACK" && fault == Combined("HANDOFF_DURING_SECOND"))
  }

  /** Commits both initial handoffs or neither. */
  method AtomicInitialTwoSlotHandoff(conn: Connection, usage: Usage, plan: HandoffPlan) returns (f: Option<Fault>)
    modifies conn`tracking, conn.ledger, usage
    ensures f == HandoffFault(plan, old(conn.tracking), old(conn.ledger.work), old(conn.ledger.jobs), old(usage.schedulerWork), old(usage.handoffs))
    ensures f.None? ==> BothHandedOff(plan, old(conn.tracking), old(conn.ledger.work), old(conn.ledger.jobs),
                                      conn.tracking, conn.ledger.work, conn.ledger.jobs)
    ensures f.None? ==> HandoffWritten(plan, old(conn.tracking), conn.tracking, conn.ledger.jobs)
    ensures f.None? ==> usage.handoffs == old(usage.handoffs) + 2 && usage.schedulerWork == old(usage.schedulerWork) + 2
    ensures f.Some? ==> conn.tracking == old(conn.tracking) && usage.handoffs == old(usage.handoffs)
    ensures f.Some? ==> f.value.Combined? || f.value.Persistence?
    ensures TurnedAway(plan, old(conn.tracking), old(usage.schedulerWork), old(usage.handoffs)) ==>
              conn.ledger.work == old(conn.ledger.work) && conn.ledger.jobs == old(conn.ledger.jobs) && usage.schedulerWork == old(usage.schedulerWork)
    ensures !TurnedAway(plan, old(conn.tracking), old(usage.schedulerWork), old(usage.handoffs)) && f.Some? && f.value.Combined? ==>
              && usage.schedulerWork == old(usage.schedulerWork) + 2
              && exists cause :: CauseReported(f.value, cause)
                                 && NeitherHandedOff(plan, old(conn.ledger.work), old(conn.ledger.jobs), conn.ledger.work, conn.ledger.jobs, cause)
    ensures Parity(old(conn.ledger.work), old(conn.ledger.jobs)) && (f.None? || f.value.Combined?) ==> Parity(conn.ledger.work, conn.ledger.jobs)
    ensures old(usage.schedulerWork) <= SCHEDULER_WORK_CEILING ==> usage.schedulerWork <= SCHEDULER_WORK_CEILING
  {
    var ledger := conn.ledger;
    ghost var t, work, jobs := conn.tracking, ledger.work, ledger.jobs;
    var refused := ValidateInitialHandoffPreflight(conn, usage, plan);
    if refused.Some? {
      return Some(Combined(refused.value));
    }
    if plan.preflightFault.Some? {
      return Some(Combined(plan.preflightFault.value));
    }
    f := OpenHandoffWork(conn, usage, plan);
    if f.Some? {
      return;
    }
    f := HandoffUnderSavepoint(conn, usage, plan, WorkId(HandoffSlot1, plan.batch), WorkId(HandoffSlot2, plan.batch), work, jobs);
  }

  /** The last two jobs are the pending first windows of the two tokens, each on its own queue row. */
  ghost predicate FirstWindowsQueued(plan: HandoffPlan, queued: nat, jobs: JobTable) {
    && |plan.selected| == 2 && |jobs| >= 2
    && var a, b := plan.selected[0], plan.selected[1];
       && jobs[|jobs| - 2] == JobRow(FirstWindow(a.mint, PoolOf(a.market)), Some(queued), JobPending)
       && jobs[|jobs| - 1] == JobRow(FirstWindow(b.mint, PoolOf(b.market)), Some(queued + 1), JobPending)
  }

  // ---- Why a handoff is refused ----

  /** The fault is that of the first check that fails, and there is none when no check fails. */
  ghost predicate IsFirst(checks: seq<Option<Fault>>, f: Option<Fault>) {
    if f.None? then forall i :: 0 <= i < |checks| ==> checks[i].None?
    else exists i :: 0 <= i < |checks| && checks[i] == f && forall j :: 0 <= j < i ==> checks[j].None?
  }

  /** A fault when its condition holds. */
  function When(failed: bool, fault: Fault): Option<Fault> {
    if failed then Some(fault) else None
  }

  /** Refusing a slot, both directions: a free ordinal is refused when the slot table would refuse the
      row; a row in use is refused for another token, and in an initial handoff for any token. */
  lemma SlotRefusalExactly(plan: HandoffPlan, t: Tracking, c: Selection, ordinal: int)
    ensures var key, r := SlotKey(plan.cycle, ordinal), SlotRefusal(plan, t, c, ordinal);
            var used := key in t.slots && t.slots[key].state !in {SlotFailed, SlotCooldown, SlotArchived, ManualReview};
            && (r == Some(Combined("HEALTHY_SLOT_MUTATION")) <==> used && t.slots[key].mint != c.mint)
            && (r == Some(Combined("CONFLICTING_SLOT")) <==> used && t.slots[key].mint == c.mint && plan.mode == Initial)
            && (r == Some(OtherException)
                <==> && key !in t.slots
                     && (|| ordinal !in {1, 2} || (exists k :: k in t.slots && k.cycle == plan.cycle && t.slots[k].mint == c.mint)
                         || PoolOf(c.market) !in t.pairs || t.pairs[PoolOf(c.market)] != c.mint))
            && (r.Some? ==> r.value in {Combined("HEALTHY_SLOT_MUTATION"), Combined("CONFLICTING_SLOT"), OtherException})
  {
    assert |"HEALTHY_SLOT_MUTATION"| == 21 && |"CONFLICTING_SLOT"| == 16;
    if exists k :: k in t.slots && k.cycle == plan.cycle && t.slots[k].mint == c.mint {
      assert !SlotInsertAllowed(plan, t, c.mint, PoolOf(c.market), ordinal);
    }
  }

  /** The checks of a preflight, in order. */
  lemma PreflightExactly(plan: HandoffPlan, t: Tracking, schedulerWork: nat, handoffs: nat)
    ensures var unproven := exists c :: c in plan.selected && (c.mint == "" || c.market == "" || !c.originConfirmed);
            var inUse := exists ordinal | ordinal in {1, 2} :: SlotKey(plan.cycle, ordinal) in t.slots && !Vacated(t.slots[SlotKey(plan.cycle, ordinal)].state);
            var r := Preflight(plan, t, schedulerWork, handoffs);
            var two := |plan.selected| == 2 && plan.vacancies == [1, 2];
            && (r == Some("HANDOFF_PREFLIGHT_FAILED") <==> !two || (handoffs == 0 && schedulerWork <= 9 && unproven))
            && (r == Some("HANDOFF_CEILING") <==> two && handoffs > 0)
            && (r == Some("SCHEDULER_WORK_CEILING") <==> two && handoffs == 0 && schedulerWork > 9)
            && (r == Some("CONFLICTING_SLOT") <==> two && handoffs == 0 && schedulerWork <= 9 && !unproven && inUse)
            && (r == None <==> two && handoffs == 0 && schedulerWork <= 9 && !unproven && !inUse)
  {
    assert |"HANDOFF_PREFLIGHT_FAILED"| == 24 && |"HANDOFF_CEILING"| == 15 && |"SCHEDULER_WORK_CEILING"| == 22 && |"CONFLICTING_SLOT"| == 16;
  }

  /** What stops a claim is the first failing check, in the order of the writes. */
  lemma ClaimFaultExactly(plan: HandoffPlan, index: nat, c: Selection, ordinal: int, t: Tracking, jobs: JobTable)
    ensures IsFirst(ClaimChecks(plan, index, c, ordinal, t, jobs), ClaimFault(plan, index, c, ordinal, t, jobs))
  {
    var checks, f := ClaimChecks(plan, index, c, ordinal, t, jobs), ClaimFault(plan, index, c, ordinal, t, jobs);
    assert f.Some? ==> exists i :: 0 <= i < |checks| && checks[i] == f && forall j :: 0 <= j < i ==> checks[j].None? by {
      var i := if checks[0].Some? then 0 else if checks[1].Some? then 1 else if checks[2].Some? then 2 else if checks[3].Some? then 3
               else if checks[4].Some? then 4 else if checks[5].Some? then 5 else if checks[6].Some? then 6 else if checks[7].Some? then 7
               else if checks[8].Some? then 8 else if checks[9].Some? then 9 else 10;
      assert f.Some? ==> checks[i] == f;
    }
  }

  ghost function ClaimChecks(plan: HandoffPlan, index: nat, c: Selection, ordinal: int, t: Tracking, jobs: JobTable): (r: seq<Option<Fault>>)
    ensures |r| == 11
  {
    var a := Assess(t.queue, c.mint, PoolOf(c.market), plan.now);
    [plan.fault(index, BeforeIdentity),
     plan.fault(index, AfterIdentity),
     if a.Refused? then Some(Combined(a.code)) else None,
     When(a.Requalifiable? && !c.freshEvidence, Combined("COOLDOWN_REQUALIFICATION_REQUIRED")),
     plan.fault(index, AfterClaim),
     When(ActiveDuplicate(jobs, FirstWindow(c.mint, PoolOf(c.market)), Some(|t.queue|)), Combined("FIRST_15M_JOB_FAILED")),
     plan.fault(index, AfterJob),
     SlotRefusal(plan, WithIdentity(t, c.mint, PoolOf(c.market)), c, ordinal),
     plan.fault(index, AfterSlot),
     When(exists k :: 0 <= k < |t.links| && t.links[k].batch == plan.batch && t.links[k].candidate == c.id, Persistence),
     plan.fault(index, AfterLink)]
  }

  /** Opening a work row, both directions: a full ledger of eleven rows, or a row of that name that is not
      running without a cause on the newest job of its name. */
  lemma OpenFaultExactly(work: WorkTable, jobs: JobTable, schedulerWork: nat, id: WorkId)
    ensures var r, name := OpenFault(work, jobs, schedulerWork, id), DiscoveryJob(id.kind, id.batch);
            var newest := NewestNamed(WithJob(jobs, name), name);
            && (r == Some(Combined("SCHEDULER_WORK_CEILING")) <==> schedulerWork >= 11)
            && (r == Some(Persistence) <==> schedulerWork < 11 && id in work && work[id] != WorkRow(newest.value, WorkRunning, None))
            && (r.Some? ==> r.value in {Combined("SCHEDULER_WORK_CEILING"), Persistence})
  {
  }

  /** A whole initial handoff: the preflight, then the injected refusal, then the two openings, then the two
      slots inside the savepoint; a fault there without a code is reported as one of the second slot. */
  lemma HandoffFaultExactly(plan: HandoffPlan, t: Tracking, work: WorkTable, jobs: JobTable, schedulerWork: nat, handoffs: nat)
    requires Preflight(plan, t, schedulerWork, handoffs).None?
    ensures var first := WorkId(HandoffSlot1, plan.batch);
            var rows, more := work[first := NewRow(jobs, first)], WithJob(jobs, DiscoveryJob(HandoffSlot1, plan.batch));
            var both := BothOpened(plan.batch, work, jobs);
            var pair := PairFault(plan, t, both.0, both.1, handoffs);
            IsFirst([if plan.preflightFault.Some? then Some(Combined(plan.preflightFault.value)) else None,
                     OpenFault(work, jobs, schedulerWork, first),
                     OpenFault(rows, more, schedulerWork + 1, WorkId(HandoffSlot2, plan.batch)),
                     if pair.Some? && !pair.value.Combined? then Some(Combined("HANDOFF_DURING_SECOND")) else pair],
                    HandoffFault(plan, t, work, jobs, schedulerWork, handoffs))
  {
    var first := WorkId(HandoffSlot1, plan.batch);
    var both, f := BothOpened(plan.batch, work, jobs), HandoffFault(plan, t, work, jobs, schedulerWork, handoffs);
    var pair := PairFault(plan, t, both.0, both.1, handoffs);
    var checks := [if plan.preflightFault.Some? then Some(Combined(plan.preflightFault.value)) else None,
                   OpenFault(work, jobs, schedulerWork, first),
                   OpenFault(work[first := NewRow(jobs, first)], WithJob(jobs, NameOf(first)), schedulerWork + 1, WorkId(HandoffSlot2, plan.batch)),
                   if pair.Some? && !pair.value.Combined? then Some(Combined("HANDOFF_DURING_SECOND")) else pair];
    FourChecks(checks, f);
  }

  lemma FourChecks(checks: seq<Option<Fault>>, f: Option<Fault>)
    requires |checks| == 4
    requires f == if checks[0].Some? then checks[0] else if checks[1].Some? then checks[1] else if checks[2].Some? then checks[2] else checks[3]
    ensures IsFirst(checks, f)
  {
    if f.Some? {
      var i := if checks[0].Some? then 0 else if checks[1].Some? then 1 else if checks[2].Some? then 2 else 3;
      assert checks[i] == f;
    }
  }

  lemma RefusedPreflight(plan: HandoffPlan, t: Tracking, work: WorkTable, jobs: JobTable, schedulerWork: nat, handoffs: nat)
    ensures var refused := Preflight(plan, t, schedulerWork, handoffs);
            refused.Some? ==> HandoffFault(plan, t, work, jobs, schedulerWork, handoffs) == Some(Combined(refused.value))
  {
  }

  /** Inside the savepoint: a selection batch that exists, one that belongs to another cycle, the first
      slot, and then the second on what the first has left, its handoff counted. */
  lemma PairFaultIsFirst(plan: HandoffPlan, t: Tracking, work: WorkTable, jobs: JobTable, handoffs: nat)
    requires |plan.selected| == 2
    ensures var a, b, s := plan.selected[0], plan.selected[1], WithSelectionBatch(plan, t);
            var ended := JobsEnded(work, jobs + [FirstWindowJob(a, |t.queue|)], WorkId(HandoffSlot1, plan.batch), WorkSucceeded);
            IsFirst([When(plan.selectionBatch in t.selectionBatches, OtherException),
                     When(plan.selectionBatch in t.batchLinks && t.batchLinks[plan.selectionBatch] != plan.batch, Persistence),
                     SlotFault(plan, 0, a, 1, s, jobs, handoffs),
                     SlotFault(plan, 1, b, 2, SlotTracking(plan, s, a, 1, |jobs|), ended, handoffs + 1)],
                    PairFault(plan, t, work, jobs, handoffs))
  {
    var a, b, s := plan.selected[0], plan.selected[1], WithSelectionBatch(plan, t);
    var ended := JobsEnded(work, jobs + [FirstWindowJob(a, |t.queue|)], WorkId(HandoffSlot1, plan.batch), WorkSucceeded);
    FourChecks([When(plan.selectionBatch in t.selectionBatches, OtherException),
                When(plan.selectionBatch in t.batchLinks && t.batchLinks[plan.selectionBatch] != plan.batch, Persistence),
                SlotFault(plan, 0, a, 1, s, jobs, handoffs),
                SlotFault(plan, 1, b, 2, SlotTracking(plan, s, a, 1, |jobs|), ended, handoffs + 1)],
               PairFault(plan, t, work, jobs, handoffs));
  }

  /** One slot: what stops its claim, and after that the ceiling of two handoffs. */
  lemma SlotFaultIsClaim(plan: HandoffPlan, index: nat, c: Selection, ordinal: int, t: Tracking, jobs: JobTable, handoffs: nat)
    ensures var claim, r := ClaimFault(plan, index, c, ordinal, t, jobs), SlotFault(plan, index, c, ordinal, t, jobs, handoffs);
            && (claim.Some? ==> r == claim)
            && (claim.None? && handoffs >= 2 ==> r == Some(Combined("HANDOFF_CEILING")))
            && (claim.None? && handoffs < 2 ==> r.None?)
  {
  }

  // ---- What a completed handoff means ----

  /** The status of the newest row of an exact token and pair decides: without a row the claim is
      fresh; a cooldown that has run out asks for fresh evidence; every other row refuses it. */
  lemma AssessedByStatus(queue: seq<QueueRow>, mint: string, pool: string, now: int, i: nat)
    requires i < |queue| && queue[i].mint == mint && queue[i].pool == pool
    requires forall j :: i < j < |queue| ==> !(queue[j].mint == mint && queue[j].pool == pool)
    ensures var a, status := Assess(queue, mint, pool, now), queue[i].status;
            && (a == Requalifiable <==> status.Cooldown? && status.until.Some? && status.until.value <= now)
            && (a == Refused("DUPLICATE_ACTIVE_TRACKING") <==> status in {Queued, Active, Paused})
            && (a == Refused("COOLDOWN_REOPEN_REQUIRED") <==> status.Cooldown? && (status.until.None? || now < status.until.value))
            && (a == Refused("TERMINAL_TRACKING_STATE") <==> status in {Skipped, Archived})
            && (a == Refused("UNSUPPORTED_TRACKING_QUEUE_STATE") <==> status.UnknownStatus?)
            && a != Fresh
  {
    CodesDiffer();
    var latest := LatestRow(queue, mint, pool);
    assert latest == Some(i);
  }

  lemma CodesDiffer()
    ensures |"DUPLICATE_ACTIVE_TRACKING"| == 25 && |"COOLDOWN_REOPEN_REQUIRED"| == 24
    ensures |"TERMINAL_TRACKING_STATE"| == 23 && |"UNSUPPORTED_TRACKING_QUEUE_STATE"| == 32
  {
  }

  lemma UnknownPairIsFresh(queue: seq<QueueRow>, mint: string, pool: string, now: int)
    ensures Assess(queue, mint, pool, now) == Fresh <==> forall j :: 0 <= j < |queue| ==> !(queue[j].mint == mint && queue[j].pool == pool)
  {
  }

  /** A token may be claimed exactly when its exact pair was never queued, or its last queue row is a
      cooldown that has run out and fresh evidence was evaluated. */
  lemma MayClaimExactly(queue: seq<QueueRow>, c: Selection, now: int)
    ensures MayClaim(queue, c, now)
            <==> || (forall j :: 0 <= j < |queue| ==> !(queue[j].mint == c.mint && queue[j].pool == PoolOf(c.market)))
                 || (c.freshEvidence && exists i: nat :: IsLatest(queue, c.mint, PoolOf(c.market), i) && CooledDown(queue[i].status, now))
  {
    var pool := PoolOf(c.market);
    UnknownPairIsFresh(queue, c.mint, pool, now);
    if i: nat :| IsLatest(queue, c.mint, pool, i) {
      AssessedByStatus(queue, c.mint, pool, now, i);
      assert forall j: nat :: IsLatest(queue, c.mint, pool, j) ==> j == i;
    } else {
      var latest := LatestRow(queue, c.mint, pool);
      assert latest.Some? ==> IsLatest(queue, c.mint, pool, latest.value);
    }
  }

  predicate IsLatest(queue: seq<QueueRow>, mint: string, pool: string, i: nat) {
    && i < |queue| && queue[i].mint == mint && queue[i].pool == pool
    && forall j :: i < j < |queue| ==> !(queue[j].mint == mint && queue[j].pool == pool)
  }

  predicate CooledDown(status: QueueStatus, now: int) {
    status.Cooldown? && status.until.Some? && status.until.value <= now
  }

  /** The pool is the text after the last colon of the market. */
  lemma {:induction false} PoolAfterColon(prefix: string, pool: string)
    requires prefix != [] ==> prefix[|prefix| - 1] == ':'
    requires ':' !in pool
    ensures PoolOf(prefix + pool) == pool
    decreases |pool|
  {
    var market := prefix + pool;
    if pool == [] {
      assert market == prefix;
    } else {
      assert market[..|market| - 1] == prefix + pool[..|pool| - 1];
      PoolAfterColon(prefix, pool[..|pool| - 1]);
    }
  }

  /** Once an exact token and pair is queued, a further claim on it is refused. */
  lemma ClaimedPairIsRefused(queue: seq<QueueRow>, more: seq<QueueRow>, mint: string, pool: string, now: int)
    requires forall k :: 0 <= k < |more| ==> !(more[k].mint == mint && more[k].pool == pool)
    ensures Assess(queue + [QueueRow(mint, pool, Queued)] + more, mint, pool, now) == Refused("DUPLICATE_ACTIVE_TRACKING")
  {
    var all := queue + [QueueRow(mint, pool, Queued)] + more;
    assert all[|queue|] == QueueRow(mint, pool, Queued);
    var latest := LatestRow(all, mint, pool);
    assert latest.Some? && latest.value >= |queue|;
  }

  /** Both slots: two different exact pairs, one queue row, one item and one link each, every link
      naming its own first-window job, and a slot row at both ordinals. */
  lemma BothSlotsComplete(plan: HandoffPlan, t: Tracking, after: Tracking, firstJob: nat)
    requires TrackingHandedOff(plan, t, after, firstJob)
    ensures var a, b := plan.selected[0], plan.selected[1];
            && (a.mint != b.mint || PoolOf(a.market) != PoolOf(b.market))
            && after.queue == t.queue + [QueueRow(a.mint, PoolOf(a.market), Queued), QueueRow(b.mint, PoolOf(b.market), Queued)]
            && after.items == t.items + [ItemRow(plan.selectionBatch, a.mint, PoolOf(a.market)), ItemRow(plan.selectionBatch, b.mint, PoolOf(b.market))]
            && after.slots.Keys == t.slots.Keys + {SlotKey(plan.cycle, 1), SlotKey(plan.cycle, 2)}
            && after.links == t.links + [
                 LinkRow(plan.batch, plan.selectionBatch, |t.items|, a.id, after.slots[SlotKey(plan.cycle, 1)].id, firstJob),
                 LinkRow(plan.batch, plan.selectionBatch, |t.items| + 1, b.id, after.slots[SlotKey(plan.cycle, 2)].id, firstJob + 1)]
            && after.selectionBatches == t.selectionBatches[plan.selectionBatch := 2]
  {
    var a, b := plan.selected[0], plan.selected[1];
    var middle := SlotTracking(plan, WithSelectionBatch(plan, t), a, 1, firstJob);
    SlotTables(plan, WithSelectionBatch(plan, t), a, 1, firstJob);
    SlotTables(plan, middle, b, 2, firstJob + 1);
    assert after.queue == t.queue + [QueueRow(a.mint, PoolOf(a.market), Queued), QueueRow(b.mint, PoolOf(b.market), Queued)];
    assert after.queue[..|t.queue| + 1] == t.queue + [QueueRow(a.mint, PoolOf(a.market), Queued)] + [];
    ClaimedPairIsRefused(t.queue, [], a.mint, PoolOf(a.market), plan.now);
  }

  lemma SlotTables(plan: HandoffPlan, t: Tracking, c: Selection, ordinal: int, job: nat)
    ensures var after, key := SlotTracking(plan, t, c, ordinal, job), SlotKey(plan.cycle, ordinal);
            && after.queue == t.queue + [QueueRow(c.mint, PoolOf(c.market), Queued)]
            && after.items == t.items + [ItemRow(plan.selectionBatch, c.mint, PoolOf(c.market))]
            && after.slots.Keys == t.slots.Keys + {key}
            && (forall k :: k in t.slots ==> after.slots[k] == t.slots[k])
            && after.links == t.links + [LinkRow(plan.batch, plan.selectionBatch, |t.items|, c.id, after.slots[key].id, job)]
            && after.selectionBatches == t.selectionBatches
  {
  }

  /** The row of an ordinal after its token was handed off: a row that was there keeps every field,
      and a free ordinal has a new row for this token, its exact pool and lifecycle, in state SELECTED,
      that points at the queue row added for the same mint and pool. */
  predicate SlotWritten(plan: HandoffPlan, t: Tracking, after: Tracking, c: Selection, ordinal: int, queueId: nat) {
    var key, id := SlotKey(plan.cycle, ordinal), "slot-" + plan.cycle + "-" + if ordinal == 1 then "1" else "2";
    && key in after.slots && queueId < |after.queue| && after.queue[queueId] == QueueRow(c.mint, PoolOf(c.market), Queued)
    && after.slots[key] == if key in t.slots then t.slots[key]
                           else SlotRow(id, c.mint, PoolOf(c.market), c.lifecycle, Some(queueId), Selected)
  }

  lemma NewSlotRow(plan: HandoffPlan, t: Tracking, c: Selection, ordinal: int, job: nat)
    ensures SlotWritten(plan, t, SlotTracking(plan, t, c, ordinal, job), c, ordinal, |t.queue|)
  {
  }

  /** The pair of a pool is never rewritten, and a new pool belongs to the token it came with. */
  predicate PairWritten(before: map<string, string>, after: map<string, string>, mint: string, pool: string) {
    && pool in after && after[pool] == (if pool in before then before[pool] else mint)
    && forall p :: p in before ==> p in after && after[p] == before[p]
  }

  lemma IdentityRows(plan: HandoffPlan, t: Tracking, c: Selection, ordinal: int, job: nat)
    ensures var after := SlotTracking(plan, t, c, ordinal, job);
            && after.tokens == t.tokens + {c.mint} && PairWritten(t.pairs, after.pairs, c.mint, PoolOf(c.market))
            && after.pairs.Keys == t.pairs.Keys + {PoolOf(c.market)}
            && after.selectionBatches == t.selectionBatches && after.batchLinks == t.batchLinks
  {
  }

  /** Every table of a completed initial handoff, ordinal by ordinal. */
  ghost predicate BothSlotsWritten(plan: HandoffPlan, t: Tracking, after: Tracking) {
    && |plan.selected| == 2
    && var a, b := plan.selected[0], plan.selected[1];
       && SlotWritten(plan, t, after, a, 1, |t.queue|) && SlotWritten(plan, t, after, b, 2, |t.queue| + 1)
       && (forall key :: key in t.slots ==> key in after.slots && after.slots[key] == t.slots[key])
       && after.slots.Keys == t.slots.Keys + {SlotKey(plan.cycle, 1), SlotKey(plan.cycle, 2)}
       && after.tokens == t.tokens + {a.mint, b.mint}
       && after.pairs.Keys == t.pairs.Keys + {PoolOf(a.market), PoolOf(b.market)}
       && PairWritten(t.pairs, after.pairs, a.mint, PoolOf(a.market))
       && (PoolOf(b.market) != PoolOf(a.market) ==> PairWritten(t.pairs, after.pairs, b.mint, PoolOf(b.market)))
       && after.batchLinks == t.batchLinks[plan.selectionBatch := plan.batch]
       && after.selectionBatches == t.selectionBatches[plan.selectionBatch := 2]
  }

  ghost predicate HandoffWritten(plan: HandoffPlan, t: Tracking, after: Tracking, jobs: JobTable) {
    BothSlotsWritten(plan, t, after) && FirstWindowsQueued(plan, |t.queue|, jobs)
  }

  /** A slot row that was written stays while later rows are added. */
  lemma SlotStays(plan: HandoffPlan, t: Tracking, middle: Tracking, after: Tracking, c: Selection, ordinal: int, queueId: nat)
    requires SlotWritten(plan, t, middle, c, ordinal, queueId) && middle.queue <= after.queue
    requires forall key :: key in middle.slots ==> key in after.slots && after.slots[key] == middle.slots[key]
    ensures SlotWritten(plan, t, after, c, ordinal, queueId)
  {
  }

  lemma SlotsOfBoth(plan: HandoffPlan, s: Tracking, middle: Tracking, after: Tracking, a: Selection, b: Selection, job: nat)
    requires middle == SlotTracking(plan, s, a, 1, job) && after == SlotTracking(plan, middle, b, 2, job + 1)
    ensures SlotWritten(plan, s, after, a, 1, |s.queue|) && SlotWritten(plan, s, after, b, 2, |s.queue| + 1)
    ensures forall key :: key in s.slots ==> key in after.slots && after.slots[key] == s.slots[key]
    ensures after.slots.Keys == s.slots.Keys + {SlotKey(plan.cycle, 1), SlotKey(plan.cycle, 2)}
  {
    NewSlotRow(plan, s, a, 1, job);
    NewSlotRow(plan, middle, b, 2, job + 1);
    SlotTables(plan, s, a, 1, job);
    SlotTables(plan, middle, b, 2, job + 1);
    SlotStays(plan, s, middle, after, a, 1, |s.queue|);
  }

  lemma IdentitiesOfBoth(plan: HandoffPlan, s: Tracking, middle: Tracking, after: Tracking, a: Selection, b: Selection, job: nat)
    requires middle == SlotTracking(plan, s, a, 1, job) && after == SlotTracking(plan, middle, b, 2, job + 1)
    ensures after.tokens == s.tokens + {a.mint, b.mint}
    ensures after.pairs.Keys == s.pairs.Keys + {PoolOf(a.market), PoolOf(b.market)}
    ensures PairWritten(s.pairs, after.pairs, a.mint, PoolOf(a.market))
    ensures PoolOf(b.market) != PoolOf(a.market) ==> PairWritten(s.pairs, after.pairs, b.mint, PoolOf(b.market))
    ensures after.batchLinks == s.batchLinks && after.selectionBatches == s.selectionBatches
  {
    IdentityRows(plan, s, a, 1, job);
    IdentityRows(plan, middle, b, 2, job + 1);
  }

  lemma BothSlotsAreWritten(plan: HandoffPlan, t: Tracking, after: Tracking, firstJob: nat)
    requires TrackingHandedOff(plan, t, after, firstJob)
    ensures BothSlotsWritten(plan, t, after)
  {
    var s, a, b := WithSelectionBatch(plan, t), plan.selected[0], plan.selected[1];
    var middle := SlotTracking(plan, s, a, 1, firstJob);
    SlotsOfBoth(plan, s, middle, after, a, b, firstJob);
    IdentitiesOfBoth(plan, s, middle, after, a, b, firstJob);
    SelectionBatchWritten(plan, t);
  }

  lemma SelectionBatchWritten(plan: HandoffPlan, t: Tracking)
    ensures var s := WithSelectionBatch(plan, t);
            && s.slots == t.slots && s.queue == t.queue && s.tokens == t.tokens && s.pairs == t.pairs
            && s.batchLinks == t.batchLinks[plan.selectionBatch := plan.batch]
            && s.selectionBatches == t.selectionBatches[plan.selectionBatch := |plan.selected|]
  {
  }

  /** The slot row names the token that was handed off exactly when the ordinal had no row before or
      that row already named it: a vacated row is reused with every old field. */
  lemma SlotNamesTheHandedOffToken(plan: HandoffPlan, t: Tracking, c: Selection, ordinal: int, job: nat)
    ensures var key, after := SlotKey(plan.cycle, ordinal), SlotTracking(plan, t, c, ordinal, job);
            && (after.slots[key].mint == c.mint <==> key !in t.slots || t.slots[key].mint == c.mint)
            && (after.slots[key].state == Selected <==> key !in t.slots || t.slots[key].state == Selected)
  {
    SlotTables(plan, t, c, ordinal, job);
  }

  /** A run in which the reused slot row does not name the token that was handed off. */
  lemma ReusedSlotKeepsItsOldToken(plan: HandoffPlan, t: Tracking, c: Selection)
    requires t == Tracking({}, map[], map[], map[], [], map[SlotKey(plan.cycle, 1) := SlotRow("old", "M1", "P1", "L", None, SlotFailed)], [], [])
    requires c == Selection("c", "M2", "P2", "L", true, false)
    ensures Vacated(t.slots[SlotKey(plan.cycle, 1)].state) && MayClaim(t.queue, c, plan.now)
    ensures SlotTracking(plan, t, c, 1, 0).slots[SlotKey(plan.cycle, 1)].mint == "M1"
  {
    SlotTables(plan, t, c, 1, 0);
  }
}
