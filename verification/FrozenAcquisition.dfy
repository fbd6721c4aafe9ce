/** One frozen acquisition execution: normalization, the atomic recheck, the exact-N manifest, and
    idempotent replay. */
module FrozenAcquisition {
  import opened Common
  import opened Ordering
  import AdmissionFunnel
  import CursorHeads
  import SelectionRotation
  import TrackingHandoff

  // ---- Observations, raw and normalized ----

  datatype RoundMode = FrozenOffline | LiveTail | Backfill

  datatype SourceStatus = Complete | Stale | ProviderFailure | BudgetExhausted | CoverageIncomplete | UnsupportedContract | Malformed

  datatype RawCursor =
    | NoCursor
    | NotAMapping
    | UnsupportedContinuity
    | Incomplete
    | UnsupportedDirection
    | Range(cursor: CursorHeads.Cursor)

  datatype Counters = Counters(governed: int, transport: int, bytes: int, rows: int, duration: int)

  /** The identity texts of an observation. */
  datatype Names<T> = Names(mint: T, pool: T, poolProgram: T, baseMint: T, quoteMint: T, tokenProgram: T, venue: T, lineage: T)

  /** An observation as submitted; a field that fails to parse is `None` or a failing variant. */
  datatype Raw = Raw(
    source: string, kind: string, ordinal: Option<int>, mode: Option<RoundMode>, status: Option<SourceStatus>,
    failureReason: Option<string>, counters: Counters, observedAt: Option<int>, expiresAt: Option<int>,
    names: Names<string>, facts: Option<AdmissionFunnel.Facts>, cursor: RawCursor)

  datatype Recheck = Recheck(reasons: set<string>, at: int, batchSeq: nat)

  /** The content an observation is hashed over. */
  datatype Content = Content(
    source: string, kind: string, ordinal: int, mode: RoundMode, status: SourceStatus, failureReason: Option<string>,
    counters: Counters, observedAt: int, expiresAt: int, names: Names<Option<string>>, facts: AdmissionFunnel.Facts,
    recheck: Option<Recheck>, cursor: Option<CursorHeads.Cursor>)

  datatype Item = Item(content: Content, hash: nat)

  type ContentDigest = Content -> nat

  ghost predicate InjectiveDigest(digest: ContentDigest) {
    forall x, y :: digest(x) == digest(y) ==> x == y
  }

  function Hashed(digest: ContentDigest, c: Content): Item {
    Item(c, digest(c))
  }

  // ---- The plan ----

  datatype Plan = Plan(
    executionId: string, policyHash: nat, selectionCapacity: nat, cutoffAt: int,
    allowedSources: set<string>, budgets: map<(string, string), int>)

  /** A validated plan selects between 1 and 16 candidates. */
  predicate PlanValid(plan: Plan) {
    1 <= plan.selectionCapacity <= 16
  }

  datatype Problem =
    | SourceNotInFrozenPlan | SourceGovernorRejected | InvalidRoundOrdinal | UnsupportedRoundMode | UnsupportedSourceStatus
    | RoundOrdinalConflict | InvalidTimestamp | EvidenceExpiryBeforeObservation | MalformedObservationFacts
    | CursorRangeRequired | MalformedCursorRange | UnsupportedContinuityState | CursorAdvancedPastUnresolvedEvidence
    | IncompleteCursorRange | UnsupportedCursorDirection | NegativeOperationAccounting
    | SourceBudgetNotDefined | SourceBudgetExhausted

  // ---- Validation of single observations ----

  datatype RoundIdentity = RoundIdentity(
    source: string, kind: string, mode: RoundMode, status: SourceStatus, failureReason: Option<string>, counters: Counters)

  predicate Negative(c: Counters) {
    c.governed < 0 || c.transport < 0 || c.bytes < 0 || c.rows < 0 || c.duration < 0
  }

  /** The checks before an observation is compared with its round. */
  function EarlyProblem(plan: Plan, governor: (string, string) -> bool, r: Raw): Option<Problem> {
    if r.source !in plan.allowedSources then Some(SourceNotInFrozenPlan)
    else if !governor(r.source, r.kind) then Some(SourceGovernorRejected)
    else if r.ordinal.None? || r.ordinal.value < 1 then Some(InvalidRoundOrdinal)
    else if r.mode.None? then Some(UnsupportedRoundMode)
    else if r.status.None? then Some(UnsupportedSourceStatus)
    else None
  }

  function CursorProblem(r: Raw): Option<Problem> {
    match r.cursor
    case NoCursor => if r.mode.Some? && r.mode.value != FrozenOffline then Some(CursorRangeRequired) else None
    case NotAMapping => if r.mode.Some? && r.mode.value != FrozenOffline then Some(CursorRangeRequired) else Some(MalformedCursorRange)
    case UnsupportedContinuity => Some(UnsupportedContinuityState)
    case Incomplete => Some(IncompleteCursorRange)
    case UnsupportedDirection => Some(UnsupportedCursorDirection)
    case Range(c) => if c.advanced && c.continuity != CursorHeads.Contiguous then Some(CursorAdvancedPastUnresolvedEvidence) else None
  }

  /** The checks after it. */
  function LateProblem(r: Raw): Option<Problem> {
    if r.observedAt.None? || r.expiresAt.None? then Some(InvalidTimestamp)
    else if r.expiresAt.value < r.observedAt.value then Some(EvidenceExpiryBeforeObservation)
    else if r.facts.None? then Some(MalformedObservationFacts)
    else if CursorProblem(r).Some? then CursorProblem(r)
    else if Negative(r.counters) then Some(NegativeOperationAccounting)
    else None
  }

  function Or<T>(o: Option<T>, default: T): T {
    if o.Some? then o.value else default
  }

  function RoundOf(r: Raw): RoundIdentity {
    RoundIdentity(r.source, r.kind, Or(r.mode, FrozenOffline), Or(r.status, Malformed), r.failureReason, r.counters)
  }

  function Clean(s: string): Option<string> {
    if Trim(s) == "" then None else Some(Trim(s))
  }

  predicate Sound(plan: Plan, governor: (string, string) -> bool, r: Raw) {
    EarlyProblem(plan, governor, r).None? && LateProblem(r).None?
  }

  /** A cursor fits its round: outside frozen offline rounds a range is needed, and a range that has
      advanced is contiguous. */
  predicate CursorFits(r: Raw) {
    match r.cursor
    case NoCursor => r.mode == Some(FrozenOffline) || r.mode.None?
    case Range(c) => c.advanced ==> c.continuity.Contiguous?
    case _ => false
  }

  /** When an observation is sound, field by field. */
  lemma SoundExactly(plan: Plan, governor: (string, string) -> bool, r: Raw)
    ensures Sound(plan, governor, r)
            <==> && r.source in plan.allowedSources && governor(r.source, r.kind)
                 && r.ordinal.Some? && r.ordinal.value >= 1 && r.mode.Some? && r.status.Some? && r.facts.Some?
                 && r.observedAt.Some? && r.expiresAt.Some? && r.expiresAt.value >= r.observedAt.value
                 && CursorFits(r)
                 && r.counters.governed >= 0 && r.counters.transport >= 0 && r.counters.bytes >= 0 && r.counters.rows >= 0 && r.counters.duration >= 0
  {
  }

  /** The problems of an unsound observation: the first check that fails names its own. */
  lemma EarlyProblemExactly(plan: Plan, governor: (string, string) -> bool, r: Raw)
    ensures var p := EarlyProblem(plan, governor, r);
            var known, governed := r.source in plan.allowedSources, governor(r.source, r.kind);
            var numbered := r.ordinal.Some? && r.ordinal.value > 0;
            && (p == Some(SourceNotInFrozenPlan) <==> !known)
            && (p == Some(SourceGovernorRejected) <==> known && !governed)
            && (p == Some(InvalidRoundOrdinal) <==> known && governed && !numbered)
            && (p == Some(UnsupportedRoundMode) <==> known && governed && numbered && r.mode == None)
            && (p == Some(UnsupportedSourceStatus) <==> known && governed && numbered && r.mode != None && r.status == None)
  {
  }

  lemma LateProblemExactly(r: Raw)
    ensures var p := LateProblem(r);
            var dated := r.observedAt.Some? && r.expiresAt.Some?;
            var ordered := dated && r.observedAt.value <= r.expiresAt.value;
            && (p == Some(InvalidTimestamp) <==> !dated)
            && (p == Some(EvidenceExpiryBeforeObservation) <==> dated && !ordered)
            && (p == Some(MalformedObservationFacts) <==> ordered && r.facts == None)
            && (ordered && r.facts != None && CursorProblem(r) != None ==> p == CursorProblem(r))
            && (p == Some(NegativeOperationAccounting)
                <==> && ordered && r.facts != None && CursorProblem(r) == None
                     && !(r.counters.governed >= 0 && r.counters.transport >= 0 && r.counters.bytes >= 0 && r.counters.rows >= 0 && r.counters.duration >= 0))
  {
  }

  lemma CursorProblemExactly(r: Raw)
    ensures var p, online := CursorProblem(r), r.mode.Some? && r.mode.value in {LiveTail, Backfill};
            && (p == Some(CursorRangeRequired) <==> online && (r.cursor.NoCursor? || r.cursor.NotAMapping?))
            && (p == Some(MalformedCursorRange) <==> !online && r.cursor.NotAMapping?)
            && (p == Some(UnsupportedContinuityState) <==> r.cursor.UnsupportedContinuity?)
            && (p == Some(IncompleteCursorRange) <==> r.cursor.Incomplete?)
            && (p == Some(UnsupportedCursorDirection) <==> r.cursor.UnsupportedDirection?)
            && (p == Some(CursorAdvancedPastUnresolvedEvidence) <==> r.cursor.Range? && r.cursor.cursor.advanced && !r.cursor.cursor.continuity.Contiguous?)
  {
  }

  const NO_FACTS := AdmissionFunnel.Facts(map[], None, "", None, "", map[])

  /** The normalized content; the defaults are never reached for a sound observation. */
  function ContentOf(r: Raw): Content {
    var n := r.names;
    Content(r.source, r.kind, Or(r.ordinal, 0), Or(r.mode, FrozenOffline), Or(r.status, Malformed), r.failureReason, r.counters,
            Or(r.observedAt, 0), Or(r.expiresAt, 0),
            Names(Clean(n.mint), Clean(n.pool), Clean(n.poolProgram), Clean(n.baseMint), Clean(n.quoteMint),
                  Clean(n.tokenProgram), Clean(n.venue), Clean(n.lineage)),
            Or(r.facts, NO_FACTS), None, if r.cursor.Range? then Some(r.cursor.cursor) else None)
  }

  /** A text that is named is the trimmed text; a blank one is absent. */
  predicate Trimmed(raw: string, text: Option<string>) {
    if Trim(raw) == "" then text.None? else text == Some(Trim(raw))
  }

  /** Every field of a normalized observation is the field of that name. */
  lemma ContentKeeps(plan: Plan, governor: (string, string) -> bool, r: Raw)
    requires Sound(plan, governor, r)
    ensures var c := ContentOf(r);
            && c.source == r.source && c.kind == r.kind && Some(c.ordinal) == r.ordinal && Some(c.mode) == r.mode && Some(c.status) == r.status
            && c.failureReason == r.failureReason && c.counters == r.counters && Some(c.facts) == r.facts
            && Some(c.observedAt) == r.observedAt && Some(c.expiresAt) == r.expiresAt && c.recheck.None?
            && (c.cursor.Some? <==> r.cursor.Range?) && (c.cursor.Some? ==> r.cursor == Range(c.cursor.value))
            && Trimmed(r.names.mint, c.names.mint) && Trimmed(r.names.pool, c.names.pool) && Trimmed(r.names.poolProgram, c.names.poolProgram)
            && Trimmed(r.names.baseMint, c.names.baseMint) && Trimmed(r.names.quoteMint, c.names.quoteMint)
            && Trimmed(r.names.tokenProgram, c.names.tokenProgram) && Trimmed(r.names.venue, c.names.venue)
            && Trimmed(r.names.lineage, c.names.lineage)
  {
  }

  function ItemOf(digest: ContentDigest): Raw -> Item {
    r => Hashed(digest, ContentOf(r))
  }

  // ---- The normalization loop ----

  datatype Env = Env(governor: (string, string) -> bool, digest: ContentDigest)

  datatype Progress = Progress(items: seq<Item>, rounds: map<int, RoundIdentity>)

  function Step(env: Env, plan: Plan, p: Progress, r: Raw): Result<Progress, Problem> {
    var early, late := EarlyProblem(plan, env.governor, r), LateProblem(r);
    if early.Some? then Err(early.value)
    else if r.ordinal.value in p.rounds && p.rounds[r.ordinal.value] != RoundOf(r) then Err(RoundOrdinalConflict)
    else if late.Some? then Err(late.value)
    else Ok(Progress(p.items + [ItemOf(env.digest)(r)], p.rounds[r.ordinal.value := RoundOf(r)]))
  }

  function StepOf(env: Env, plan: Plan): (nat, Raw, Progress) -> Result<Progress, Problem> {
    (i: nat, r: Raw, p: Progress) => Step(env, plan, p, r)
  }

  function Steps(env: Env, plan: Plan, raws: seq<Raw>): Result<Progress, Problem> {
    RunSteps(raws, StepOf(env, plan), Progress([], map[]))
  }

  /** Round by round, then source, then content hash. */
  predicate ItemLe(a: Item, b: Item) {
    if a.content.ordinal != b.content.ordinal then a.content.ordinal < b.content.ordinal
    else if a.content.source != b.content.source then StrLe(a.content.source, b.content.source)
    else a.hash <= b.hash
  }

  // ---- Source budgets ----

  /** The first item of every round, in order. */
  function Rounds(items: seq<Item>): (r: seq<Item>)
    ensures forall x :: x in r ==> x in items
  {
    if items == [] then []
    else
      var front, last := Rounds(items[..|items| - 1]), items[|items| - 1];
      if exists i :: 0 <= i < |front| && front[i].content.ordinal == last.content.ordinal then front else front + [last]
  }

  function Usage(rounds: seq<Item>, source: string, kind: string): int {
    if rounds == [] then 0
    else
      var c := rounds[|rounds| - 1].content;
      Usage(rounds[..|rounds| - 1], source, kind) + if c.source == source && c.kind == kind then c.counters.governed else 0
  }

  function BudgetProblem(budgets: map<(string, string), int>, rounds: seq<Item>, checked: nat): Option<Problem>
    requires checked <= |rounds|
    decreases checked
  {
    if checked == 0 then None
    else
      var earlier := BudgetProblem(budgets, rounds, checked - 1);
      if earlier.Some? then earlier
      else
        var key := (rounds[checked - 1].content.source, rounds[checked - 1].content.kind);
        if key !in budgets || budgets[key] < 0 then Some(SourceBudgetNotDefined)
        else if Usage(rounds, key.0, key.1) > budgets[key] then Some(SourceBudgetExhausted)
        else None
  }

  function Normalize(env: Env, plan: Plan, raws: seq<Raw>): Result<seq<Item>, Problem> {
    var steps := Steps(env, plan, raws);
    if steps.Err? then Err(steps.error)
    else
      var sorted := SortBy(steps.value.items, ItemLe);
      var rounds := Rounds(sorted);
      var over := BudgetProblem(plan.budgets, rounds, |rounds|);
      if over.Some? then Err(over.value) else Ok(sorted)
  }

  method NormalizeObservations(env: Env, plan: Plan, raws: seq<Raw>) returns (r: Result<seq<Item>, Problem>)
    ensures r == Normalize(env, plan, raws)
  {
    assert raws[..|raws|] == raws;
    var progress := Progress([], map[]);
    for i := 0 to |raws|
      invariant Steps(env, plan, raws[..i]) == Ok(progress)
    {
      RunStepsNext(raws, i, StepOf(env, plan), Progress([], map[]), progress);
      var step := Step(env, plan, progress, raws[i]);
      if step.Err? {
        RunStepsEnd(raws, i + 1, StepOf(env, plan), Progress([], map[]));
        return Err(step.error);
      }
      progress := step.value;
    }
    var sorted := SortBy(progress.items, ItemLe);
    var rounds := Rounds(sorted);
    for k := 0 to |rounds|
      invariant BudgetProblem(plan.budgets, rounds, k).None?
    {
      var over := BudgetProblem(plan.budgets, rounds, k + 1);
      if over.Some? {
        BudgetStops(plan.budgets, rounds, k + 1, |rounds|);
        return Err(over.value);
      }
    }
    return Ok(sorted);
  }

  lemma {:induction false} BudgetStops(budgets: map<(string, string), int>, rounds: seq<Item>, i: nat, j: nat)
    requires i <= j <= |rounds| && BudgetProblem(budgets, rounds, i).Some?
    ensures BudgetProblem(budgets, rounds, j) == BudgetProblem(budgets, rounds, i)
    decreases j
  {
    if i < j {
      BudgetStops(budgets, rounds, i, j - 1);
    }
  }

  /** x is at position i, and no item before it belongs to its round. */
  predicate FirstOfRound(items: seq<Item>, x: Item, i: nat) {
    i < |items| && items[i] == x && forall j :: 0 <= j < i ==> items[j].content.ordinal != x.content.ordinal
  }

  predicate OrdinalSeen(items: seq<Item>, ordinal: int) {
    exists i :: 0 <= i < |items| && items[i].content.ordinal == ordinal
  }

  lemma {:induction false} RoundsSeen(items: seq<Item>, ordinal: int)
    ensures OrdinalSeen(Rounds(items), ordinal) <==> OrdinalSeen(items, ordinal)
  {
    if items != [] {
      var front, last := items[..|items| - 1], items[|items| - 1];
      RoundsSeen(front, ordinal);
      assert items == front + [last];
      if OrdinalSeen(items, ordinal) && last.content.ordinal != ordinal {
        var i :| 0 <= i < |items| && items[i].content.ordinal == ordinal;
        assert front[i].content.ordinal == ordinal;
      }
      SeenFirst(Rounds(front), last, ordinal);
      if OrdinalSeen(front, ordinal) {
        var i :| 0 <= i < |front| && front[i].content.ordinal == ordinal;
        assert items[i].content.ordinal == ordinal;
      }
    }
  }

  lemma SeenFirst(rounds: seq<Item>, last: Item, ordinal: int)
    ensures OrdinalSeen(rounds + [last], ordinal) <==> OrdinalSeen(rounds, ordinal) || last.content.ordinal == ordinal
  {
    var more := rounds + [last];
    if OrdinalSeen(rounds, ordinal) {
      var i :| 0 <= i < |rounds| && rounds[i].content.ordinal == ordinal;
      assert more[i].content.ordinal == ordinal;
    }
    assert more[|rounds|] == last;
  }

  /** The rounds that are charged: one item for every ordinal, the first that names it. */
  lemma {:induction false} RoundsExactly(items: seq<Item>, x: Item)
    ensures x in Rounds(items) <==> exists i :: FirstOfRound(items, x, i)
  {
    if items != [] {
      var front, last := items[..|items| - 1], items[|items| - 1];
      RoundsExactly(front, x);
      RoundsSeen(front, last.content.ordinal);
      assert forall i :: 0 <= i < |front| ==> items[i] == front[i];
      forall i: nat | i < |front| ensures FirstOfRound(items, x, i) <==> FirstOfRound(front, x, i) {
      }
      assert OrdinalSeen(front, last.content.ordinal) <==> !FirstOfRound(items, last, |front|);
    }
  }

  /** What a source and kind used is what its rounds used, added up. */
  lemma {:induction false} UsageAdds(a: seq<Item>, b: seq<Item>, source: string, kind: string)
    ensures Usage(a + b, source, kind) == Usage(a, source, kind) + Usage(b, source, kind)
    decreases |b|
  {
    if b == [] {
      assert a + b == a;
    } else {
      assert (a + b)[..|a + b| - 1] == a + b[..|b| - 1];
      UsageAdds(a, b[..|b| - 1], source, kind);
    }
  }

  lemma UsageOfOne(x: Item, source: string, kind: string)
    ensures Usage([x], source, kind) == if x.content.source == source && x.content.kind == kind then x.content.counters.governed else 0
  {
  }

  ghost predicate WithinBudget(budgets: map<(string, string), int>, rounds: seq<Item>, x: Item) {
    var key := (x.content.source, x.content.kind);
    key in budgets && 0 <= budgets[key] && Usage(rounds, key.0, key.1) <= budgets[key]
  }

  /** The budget loop passes exactly when every source and kind that was used has a budget that
      covers the sum of its rounds. */
  lemma {:induction false} BudgetExactly(budgets: map<(string, string), int>, rounds: seq<Item>, checked: nat)
    requires checked <= |rounds|
    ensures BudgetProblem(budgets, rounds, checked).None? <==> forall k :: 0 <= k < checked ==> WithinBudget(budgets, rounds, rounds[k])
  {
    if checked > 0 {
      BudgetExactly(budgets, rounds, checked - 1);
    }
  }

  // ---- Acceptance, and its independence of arrival order ----

  /** Every observation is sound, and observations of one round agree on the round. */
  ghost predicate Acceptable(env: Env, plan: Plan, raws: seq<Raw>) {
    && (forall r :: r in raws ==> Sound(plan, env.governor, r))
    && (forall r, q :: r in raws && q in raws && r.ordinal == q.ordinal ==> RoundOf(r) == RoundOf(q))
  }

  ghost predicate RoundsRecorded(p: Progress, raws: seq<Raw>) {
    && (forall r :: r in raws && r.ordinal.Some? ==> r.ordinal.value in p.rounds && p.rounds[r.ordinal.value] == RoundOf(r))
    && (forall k :: k in p.rounds ==> RoundSeen(raws, k))
  }

  ghost predicate RoundSeen(raws: seq<Raw>, k: int) {
    exists r :: r in raws && r.ordinal == Some(k)
  }

  /** The loop accepts exactly the acceptable inputs, and then yields one item per observation. */
  lemma {:induction false} StepsExactly(env: Env, plan: Plan, raws: seq<Raw>)
    ensures Steps(env, plan, raws).Ok? <==> Acceptable(env, plan, raws)
    ensures Steps(env, plan, raws).Ok? ==>
              Steps(env, plan, raws).value.items == Map(raws, ItemOf(env.digest)) && RoundsRecorded(Steps(env, plan, raws).value, raws)
    decreases |raws|
  {
    if raws != [] {
      var front, last := raws[..|raws| - 1], raws[|raws| - 1];
      assert raws == front + [last];
      StepsExactly(env, plan, front);
      MapLast(raws, ItemOf(env.digest));
      if Steps(env, plan, front).Ok? {
        StepExactly(env, plan, Steps(env, plan, front).value, front, last);
      }
    }
  }

  ghost predicate AllWithinBudget(budgets: map<(string, string), int>, rounds: seq<Item>) {
    forall x :: x in rounds ==> WithinBudget(budgets, rounds, x)
  }

  lemma BudgetsExactly(budgets: map<(string, string), int>, rounds: seq<Item>)
    ensures BudgetProblem(budgets, rounds, |rounds|).None? <==> AllWithinBudget(budgets, rounds)
  {
    BudgetExactly(budgets, rounds, |rounds|);
    forall x | x in rounds ensures exists k :: 0 <= k < |rounds| && rounds[k] == x {
    }
  }

  /** Normalization accepts exactly the sound inputs within their budgets, and yields one item per
      observation, sorted by round, source and content. */
  lemma NormalizeExactly(env: Env, plan: Plan, raws: seq<Raw>)
    ensures Normalize(env, plan, raws).Ok? <==>
              Acceptable(env, plan, raws) && AllWithinBudget(plan.budgets, Rounds(SortBy(Map(raws, ItemOf(env.digest)), ItemLe)))
    ensures Normalize(env, plan, raws).Ok? ==>
              var items := Normalize(env, plan, raws).value;
              Sorted(items, ItemLe) && multiset(items) == multiset(Map(raws, ItemOf(env.digest)))
  {
    var items := Map(raws, ItemOf(env.digest));
    StepsExactly(env, plan, raws);
    BudgetsExactly(plan.budgets, Rounds(SortBy(items, ItemLe)));
    ItemOrder();
    SortIsSorted(items, ItemLe);
    SortIsPermutation(items, ItemLe);
  }

  ghost predicate AgreesWith(front: seq<Raw>, last: Raw) {
    forall r :: r in front && r.ordinal == last.ordinal ==> RoundOf(r) == RoundOf(last)
  }

  lemma AcceptableExtends(env: Env, plan: Plan, front: seq<Raw>, last: Raw)
    ensures Acceptable(env, plan, front + [last])
            <==> Acceptable(env, plan, front) && Sound(plan, env.governor, last) && AgreesWith(front, last)
  {
    var raws := front + [last];
    assert forall r :: r in raws <==> r in front || r == last;
  }

  /** The recorded rounds answer the comparison with every earlier observation. */
  lemma RecordedRoundsAnswer(p: Progress, front: seq<Raw>, last: Raw)
    requires RoundsRecorded(p, front) && last.ordinal.Some?
    requires forall r, q :: r in front && q in front && r.ordinal == q.ordinal ==> RoundOf(r) == RoundOf(q)
    ensures (last.ordinal.value in p.rounds ==> p.rounds[last.ordinal.value] == RoundOf(last)) <==> AgreesWith(front, last)
  {
    if last.ordinal.value in p.rounds {
      assert RoundSeen(front, last.ordinal.value);
      var r :| r in front && r.ordinal == Some(last.ordinal.value);
      assert p.rounds[last.ordinal.value] == RoundOf(r);
    }
  }

  lemma RoundsExtend(p: Progress, q: Progress, front: seq<Raw>, last: Raw)
    requires RoundsRecorded(p, front) && last.ordinal.Some? && q.rounds == p.rounds[last.ordinal.value := RoundOf(last)]
    requires AgreesWith(front, last)
    ensures RoundsRecorded(q, front + [last])
  {
    var raws := front + [last];
    assert forall r :: r in raws <==> r in front || r == last;
    forall k | k in q.rounds ensures RoundSeen(raws, k) {
      if k == last.ordinal.value {
        assert last in raws;
      } else {
        assert RoundSeen(front, k);
        var r :| r in front && r.ordinal == Some(k);
        assert r in raws;
      }
    }
  }

  lemma StepExactly(env: Env, plan: Plan, p: Progress, front: seq<Raw>, last: Raw)
    requires Acceptable(env, plan, front) && RoundsRecorded(p, front)
    ensures Step(env, plan, p, last).Ok? <==> Acceptable(env, plan, front + [last])
    ensures Step(env, plan, p, last).Ok? ==> RoundsRecorded(Step(env, plan, p, last).value, front + [last])
  {
    AcceptableExtends(env, plan, front, last);
    if EarlyProblem(plan, env.governor, last).None? {
      RecordedRoundsAnswer(p, front, last);
      if Step(env, plan, p, last).Ok? {
        RoundsExtend(p, Step(env, plan, p, last).value, front, last);
      }
    }
  }

  lemma ItemOrder()
    ensures Comparison(ItemLe)
  {
    forall x, y ensures ItemLe(x, y) || ItemLe(y, x) {
      StrLeTotal(x.content.source, y.content.source);
    }
    forall x, y, z | ItemLe(x, y) && ItemLe(y, z) ensures ItemLe(x, z) {
      ItemLeTransitive(x, y, z);
    }
  }

  lemma ItemLeTransitive(x: Item, y: Item, z: Item)
    requires ItemLe(x, y) && ItemLe(y, z)
    ensures ItemLe(x, z)
  {
    if x.content.ordinal == y.content.ordinal == z.content.ordinal && x.content.source != y.content.source && y.content.source != z.content.source {
      StrLeTransitive(x.content.source, y.content.source, z.content.source);
      if x.content.source == z.content.source {
        StrLeAntisymmetric(x.content.source, y.content.source);
      }
    }
  }

  ghost predicate AllHashed(digest: ContentDigest, items: seq<Item>) {
    forall x :: x in items ==> x.hash == digest(x.content)
  }

  lemma TiesAreEqual(digest: ContentDigest, x: Item, y: Item)
    requires InjectiveDigest(digest) && x.hash == digest(x.content) && y.hash == digest(y.content)
    requires ItemLe(x, y) && ItemLe(y, x)
    ensures x == y
  {
    if x.content.source != y.content.source {
      StrLeAntisymmetric(x.content.source, y.content.source);
    }
  }

  /** Items sorted by round, source and hash do not remember the order in which they arrived. */
  lemma SortedItemsUnique(digest: ContentDigest, a: seq<Item>, b: seq<Item>)
    requires InjectiveDigest(digest) && AllHashed(digest, a) && multiset(a) == multiset(b)
    ensures SortBy(a, ItemLe) == SortBy(b, ItemLe)
  {
    ItemOrder();
    forall x, y | x in a && y in a && ItemLe(x, y) && ItemLe(y, x) ensures x == y {
      TiesAreEqual(digest, x, y);
    }
    SortIgnoresArrivalOrder(a, b, ItemLe);
  }

  lemma AcceptablePermutes(env: Env, plan: Plan, a: seq<Raw>, b: seq<Raw>)
    requires multiset(a) == multiset(b)
    ensures Acceptable(env, plan, a) <==> Acceptable(env, plan, b)
  {
    PermutationMembers(a, b);
  }

  /** Order independence: if one ordering is accepted, every permutation is, with the same list. */
  lemma NormalizeIgnoresOrder(env: Env, plan: Plan, a: seq<Raw>, b: seq<Raw>)
    requires InjectiveDigest(env.digest) && multiset(a) == multiset(b)
    ensures Normalize(env, plan, a).Ok? <==> Normalize(env, plan, b).Ok?
    ensures Normalize(env, plan, a).Ok? ==> Normalize(env, plan, a) == Normalize(env, plan, b)
  {
    StepsExactly(env, plan, a);
    StepsExactly(env, plan, b);
    AcceptablePermutes(env, plan, a, b);
    if Steps(env, plan, a).Ok? {
      MapPermutation(a, b, ItemOf(env.digest));
      ItemsAreHashed(env.digest, a);
      SortedItemsUnique(env.digest, Map(a, ItemOf(env.digest)), Map(b, ItemOf(env.digest)));
    }
  }

  lemma ItemsAreHashed(digest: ContentDigest, raws: seq<Raw>)
    ensures AllHashed(digest, Map(raws, ItemOf(digest)))
  {
  }

  // ---- The atomic recheck ----

  /** What the tracking tables and the rotation table say at the moment of the write lock: the next
      batch sequence, and the blocking reasons of an exact token and pool. */
  datatype Current = Current(nextBatchSeq: nat, blocking: (string, string) -> set<string>)

  /** Why one tracking lane refuses an exact token and pool; an expired cooldown does not refuse. */
  function LaneReasons(queue: seq<TrackingHandoff.QueueRow>, mint: string, pool: string, now: int): set<string> {
    var a := TrackingHandoff.Assess(queue, mint, pool, now);
    if a.Refused? then {a.code} else {}
  }

  function CooldownReasons(rows: SelectionRotation.Table, mint: string, pool: string, nextBatchSeq: int): set<string> {
    (if SelectionRotation.TokenGate(rows, mint, nextBatchSeq, SelectionRotation.COOLDOWN_WINDOW) then {} else {"TOKEN_SELECTION_COOLDOWN"})
    + if SelectionRotation.PairGate(rows, pool, nextBatchSeq, SelectionRotation.COOLDOWN_WINDOW) then {} else {"PAIR_SELECTION_COOLDOWN"}
  }

  /** The facts are read from the two lanes of the tracking queue and from the rotation table. */
  ghost predicate ReadFrom(
    current: Current, rows: SelectionRotation.Table, fast: seq<TrackingHandoff.QueueRow>, normal: seq<TrackingHandoff.QueueRow>, now: int)
  {
    && SelectionRotation.IsNextBatchSeq(rows, current.nextBatchSeq)
    && forall mint, pool ::
         current.blocking(mint, pool) == LaneReasons(fast, mint, pool, now) + LaneReasons(normal, mint, pool, now)
                                         + CooldownReasons(rows, mint, pool, current.nextBatchSeq)
  }

  predicate Named(c: Content) {
    c.names.mint.Some? && c.names.pool.Some?
  }

  function RecheckedContent(current: Current, cutoff: int, c: Content): Content {
    if !Named(c) then c
    else
      var reasons := current.blocking(c.names.mint.value, c.names.pool.value);
      c.(facts := c.facts.(status := c.facts.status[AdmissionFunnel.IdentityAvailable := if reasons == {} then "PASS" else "FAIL"]),
      recheck := Some(Recheck(reasons, cutoff, current.nextBatchSeq)))
  }

  function RecheckItem(digest: ContentDigest, current: Current, cutoff: int): Item -> Item {
    (x: Item) => Hashed(digest, RecheckedContent(current, cutoff, x.content))
  }

  function Rechecked(digest: ContentDigest, current: Current, cutoff: int, items: seq<Item>): seq<Item> {
    SortBy(Map(items, RecheckItem(digest, current, cutoff)), ItemLe)
  }

  method AtomicTrackingAndCooldownRecheck(digest: ContentDigest, current: Current, cutoff: int, items: seq<Item>) returns (r: seq<Item>)
    ensures r == Rechecked(digest, current, cutoff, items)
    ensures AllRechecked(current, cutoff, items, r)
  {
    var result := RecheckEach(digest, current, cutoff, items);
    EveryItemIsRechecked(digest, current, cutoff, items);
    return SortBy(result, ItemLe);
  }

  /** The loop over the observations; every exact pair is looked up once. */
  method RecheckEach(digest: ContentDigest, current: Current, cutoff: int, items: seq<Item>) returns (result: seq<Item>)
    ensures result == Map(items, RecheckItem(digest, current, cutoff))
  {
    assert items[..|items|] == items;
    var decisions: map<(string, string), set<string>> := map[];
    result := [];
    for i := 0 to |items|
      invariant forall key :: key in decisions ==> decisions[key] == current.blocking(key.0, key.1)
      invariant result == Map(items[..i], RecheckItem(digest, current, cutoff))
    {
      assert items[..i + 1][..i] == items[..i];
      var c := items[i].content;
      if Named(c) {
        var key := (c.names.mint.value, c.names.pool.value);
        if key !in decisions {
          decisions := decisions[key := current.blocking(key.0, key.1)];
        }
        c := c.(facts := c.facts.(status := c.facts.status[AdmissionFunnel.IdentityAvailable := if decisions[key] == {} then "PASS" else "FAIL"]),
                recheck := Some(Recheck(decisions[key], cutoff, current.nextBatchSeq)));
      }
      result := result + [Hashed(digest, c)];
    }
  }

  /** What the recheck makes of one observation: a named one states PASS for the tracking stage exactly
      when nothing blocks its mint and pool, FAIL otherwise, and records why; nothing else changes. */
  ghost predicate RecheckedFrom(current: Current, cutoff: int, before: Content, after: Content) {
    if !Named(before) then after == before
    else
      var reasons, stage := current.blocking(before.names.mint.value, before.names.pool.value), AdmissionFunnel.IdentityAvailable;
      && stage in after.facts.status
      && (after.facts.status[stage] == "PASS" <==> reasons == {}) && (after.facts.status[stage] == "FAIL" <==> reasons != {})
      && (forall other :: other != stage ==>
            (other in after.facts.status <==> other in before.facts.status)
            && (other in before.facts.status ==> after.facts.status[other] == before.facts.status[other]))
      && after.recheck == Some(Recheck(reasons, cutoff, current.nextBatchSeq))
      && after == before.(facts := before.facts.(status := after.facts.status), recheck := after.recheck)
  }

  lemma RecheckDecides(current: Current, cutoff: int, c: Content)
    ensures RecheckedFrom(current, cutoff, c, RecheckedContent(current, cutoff, c))
  {
    AdmissionFunnel.StatusTextsDiffer();
  }

  /** Every item is rechecked, once: nothing is added, lost or left as it was. */
  ghost predicate AllRechecked(current: Current, cutoff: int, items: seq<Item>, r: seq<Item>) {
    && |r| == |items|
    && (forall y :: y in r ==> exists x :: x in items && RecheckedFrom(current, cutoff, x.content, y.content))
    && (forall x :: x in items ==> exists y :: y in r && RecheckedFrom(current, cutoff, x.content, y.content))
  }

  lemma ItemIsRechecked(digest: ContentDigest, current: Current, cutoff: int, items: seq<Item>, x: Item) returns (y: Item)
    requires x in items
    ensures y in Rechecked(digest, current, cutoff, items) && RecheckedFrom(current, cutoff, x.content, y.content)
  {
    var f := RecheckItem(digest, current, cutoff);
    y := f(x);
    SortIsPermutation(Map(items, f), ItemLe);
    PermutationMembers(Map(items, f), Rechecked(digest, current, cutoff, items));
    var i :| 0 <= i < |items| && items[i] == x;
    assert Map(items, f)[i] == y;
    RecheckDecides(current, cutoff, x.content);
  }

  lemma EveryItemIsRechecked(digest: ContentDigest, current: Current, cutoff: int, items: seq<Item>)
    ensures AllRechecked(current, cutoff, items, Rechecked(digest, current, cutoff, items))
  {
    var f, r := RecheckItem(digest, current, cutoff), Rechecked(digest, current, cutoff, items);
    SortIsPermutation(Map(items, f), ItemLe);
    PermutationMembers(Map(items, f), r);
    forall x | x in items ensures exists y :: y in r && RecheckedFrom(current, cutoff, x.content, y.content) {
      var y := ItemIsRechecked(digest, current, cutoff, items, x);
    }
    forall y | y in r ensures exists x :: x in items && RecheckedFrom(current, cutoff, x.content, y.content) {
      MapMembers(items, f, y);
      var k :| 0 <= k < |items| && f(items[k]) == y;
      RecheckDecides(current, cutoff, items[k].content);
      assert items[k] in items && RecheckedFrom(current, cutoff, items[k].content, y.content);
    }
  }

  /** Nothing the recheck reads about these items has changed. */
  ghost predicate SameFacts(before: Current, after: Current, items: seq<Item>) {
    forall x :: x in items && Named(x.content) ==>
                  && before.nextBatchSeq == after.nextBatchSeq
                  && before.blocking(x.content.names.mint.value, x.content.names.pool.value)
                     == after.blocking(x.content.names.mint.value, x.content.names.pool.value)
  }

  lemma RecheckKeepsNames(current: Current, cutoff: int, c: Content)
    ensures RecheckedContent(current, cutoff, c).names == c.names
    ensures Named(c) ==> RecheckedContent(current, cutoff, c).recheck
                         == Some(Recheck(current.blocking(c.names.mint.value, c.names.pool.value), cutoff, current.nextBatchSeq))
  {
  }

  lemma SameFactsSameRecheck(digest: ContentDigest, before: Current, after: Current, cutoff: int, items: seq<Item>)
    requires SameFacts(before, after, items)
    ensures Map(items, RecheckItem(digest, before, cutoff)) == Map(items, RecheckItem(digest, after, cutoff))
  {
    var f, g := RecheckItem(digest, before, cutoff), RecheckItem(digest, after, cutoff);
    forall i | 0 <= i < |items| ensures Map(items, f)[i] == Map(items, g)[i] {
      assert items[i] in items;
    }
  }

  lemma SameRecheckSameMembers(digest: ContentDigest, before: Current, after: Current, cutoff: int, items: seq<Item>)
    requires Rechecked(digest, before, cutoff, items) == Rechecked(digest, after, cutoff, items)
    ensures forall y :: y in Map(items, RecheckItem(digest, before, cutoff)) ==> y in Map(items, RecheckItem(digest, after, cutoff))
  {
    SortIsPermutation(Map(items, RecheckItem(digest, before, cutoff)), ItemLe);
    SortIsPermutation(Map(items, RecheckItem(digest, after, cutoff)), ItemLe);
  }

  lemma SameRecheckSameFacts(digest: ContentDigest, before: Current, after: Current, cutoff: int, items: seq<Item>)
    requires Rechecked(digest, before, cutoff, items) == Rechecked(digest, after, cutoff, items)
    ensures SameFacts(before, after, items)
  {
    SameRecheckSameMembers(digest, before, after, cutoff, items);
    forall x | x in items && Named(x.content)
      ensures before.nextBatchSeq == after.nextBatchSeq
      ensures before.blocking(x.content.names.mint.value, x.content.names.pool.value)
           == after.blocking(x.content.names.mint.value, x.content.names.pool.value)
    {
      RecheckReveals(digest, before, after, cutoff, items, x);
    }
  }

  /** Two rechecks of the same items agree exactly when the facts they read agree. */
  lemma RecheckAgreesExactly(digest: ContentDigest, before: Current, after: Current, cutoff: int, items: seq<Item>)
    ensures Rechecked(digest, before, cutoff, items) == Rechecked(digest, after, cutoff, items) <==> SameFacts(before, after, items)
  {
    if SameFacts(before, after, items) {
      SameFactsSameRecheck(digest, before, after, cutoff, items);
    }
    if Rechecked(digest, before, cutoff, items) == Rechecked(digest, after, cutoff, items) {
      SameRecheckSameFacts(digest, before, after, cutoff, items);
    }
  }

  lemma RecheckReveals(digest: ContentDigest, before: Current, after: Current, cutoff: int, items: seq<Item>, x: Item)
    requires x in items && Named(x.content)
    requires forall y :: y in Map(items, RecheckItem(digest, before, cutoff)) ==> y in Map(items, RecheckItem(digest, after, cutoff))
    ensures before.nextBatchSeq == after.nextBatchSeq
    ensures before.blocking(x.content.names.mint.value, x.content.names.pool.value)
         == after.blocking(x.content.names.mint.value, x.content.names.pool.value)
  {
    var f, g := RecheckItem(digest, before, cutoff), RecheckItem(digest, after, cutoff);
    var i :| 0 <= i < |items| && items[i] == x;
    assert Map(items, f)[i] == f(x);
    MapMembers(items, g, f(x));
    var k :| 0 <= k < |items| && g(items[k]) == f(x);
    RecheckKeepsNames(before, cutoff, x.content);
    RecheckKeepsNames(after, cutoff, items[k].content);
  }

  // ---- Candidates and the exact-N manifest ----

  function ObservationOf(x: Item): AdmissionFunnel.Observation {
    var c := x.content;
    AdmissionFunnel.Observation(c.names.mint, c.names.pool, c.names.poolProgram, c.names.baseMint, c.names.quoteMint,
                                c.names.tokenProgram, c.names.lineage, c.expiresAt, c.status == Stale, c.facts)
  }

  function CandidatesOf(plan: Plan, items: seq<Item>): seq<AdmissionFunnel.Candidate> {
    AdmissionFunnel.Candidates(Map(items, ObservationOf), 2 * plan.selectionCapacity, plan.cutoffAt)
  }

  /** What the funnel sees of an item: the texts of its names, its expiry and facts, and whether its source was stale. */
  lemma ObservationSays(x: Item)
    ensures var o, n := ObservationOf(x), x.content.names;
            && o.mint == n.mint && o.pool == n.pool && o.poolProgram == n.poolProgram && o.baseMint == n.baseMint && o.quoteMint == n.quoteMint
            && o.tokenProgram == n.tokenProgram && o.lineageClaim == n.lineage && o.expiresAt == x.content.expiresAt
            && (o.sourceStale <==> x.content.status == Stale) && o.facts == x.content.facts
  {
  }

  /** Twice the selection capacity of mints is judged, or all there are. */
  lemma CandidateCount(plan: Plan, items: seq<Item>)
    ensures |CandidatesOf(plan, items)| == Min(2 * plan.selectionCapacity, |AdmissionFunnel.MintsSeen(Map(items, ObservationOf))|)
  {
    AdmissionFunnel.EvaluatedAreFirst(Map(items, ObservationOf), 2 * plan.selectionCapacity);
  }

  function Admitted(candidates: seq<AdmissionFunnel.Candidate>): (r: seq<AdmissionFunnel.Candidate>)
    ensures forall c :: c in r <==> c in candidates && c.Admitted()
  {
    if candidates == [] then []
    else Admitted(candidates[..|candidates| - 1]) + if candidates[|candidates| - 1].Admitted() then [candidates[|candidates| - 1]] else []
  }

  /** The hash of seed, mint, pool and certificate that orders the draw. */
  type RankDigest = AdmissionFunnel.Candidate -> nat

  function DrawOrder(rank: RankDigest): (AdmissionFunnel.Candidate, AdmissionFunnel.Candidate) -> bool {
    (a: AdmissionFunnel.Candidate, b: AdmissionFunnel.Candidate) =>
      if rank(a) != rank(b) then rank(a) < rank(b) else KeyLe([a.mint, Or(a.pool, "")], [b.mint, Or(b.pool, "")])
  }

  datatype ManifestItem = ManifestItem(ordinal: nat, mint: string, pool: Option<string>)

  function Drawn(rank: RankDigest, admitted: seq<AdmissionFunnel.Candidate>): seq<AdmissionFunnel.Candidate> {
    SortBy(admitted, DrawOrder(rank))
  }

  /** Exactly n items, numbered from 1, or none. */
  function Manifest(rank: RankDigest, admitted: seq<AdmissionFunnel.Candidate>, n: nat): seq<ManifestItem> {
    if |admitted| < n then []
    else
      var drawn := Drawn(rank, admitted);
      seq(n, i requires 0 <= i < n => ManifestItem(i + 1, drawn[i].mint, drawn[i].pool))
  }

  datatype Readiness = NotReady | ReadyExactNoSpare | ReadyWithReserve

  function ReserveTarget(n: nat): nat {
    n + (n + 1) / 2
  }

  function ReadinessOf(admitted: nat, n: nat): Readiness {
    if admitted < n then NotReady else if admitted >= ReserveTarget(n) then ReadyWithReserve else ReadyExactNoSpare
  }

  /** Ready with a reserve from one and a half times the capacity on. */
  lemma ReadinessExactly(admitted: nat, n: nat)
    ensures ReadinessOf(admitted, n) == NotReady <==> admitted < n
    ensures ReadinessOf(admitted, n) == ReadyExactNoSpare <==> n <= admitted && 2 * admitted < 3 * n
    ensures ReadinessOf(admitted, n) == ReadyWithReserve <==> n <= admitted && 2 * admitted >= 3 * n
  {
  }

  function MintKey(c: AdmissionFunnel.Candidate): string { c.mint }

  function PoolKey(c: AdmissionFunnel.Candidate): Option<string> { c.pool }

  lemma {:induction false} AdmittedKeepsKeys<K>(candidates: seq<AdmissionFunnel.Candidate>, key: AdmissionFunnel.Candidate -> K)
    requires forall i, j :: 0 <= i < j < |candidates| && candidates[i].Admitted() && candidates[j].Admitted() ==> key(candidates[i]) != key(candidates[j])
    ensures DistinctBy(Admitted(candidates), key)
  {
    if candidates != [] {
      var front, last := candidates[..|candidates| - 1], candidates[|candidates| - 1];
      AdmittedKeepsKeys(front, key);
      var kept := Admitted(front);
      if last.Admitted() {
        forall i | 0 <= i < |kept| ensures key(kept[i]) != key(last) {
          assert kept[i] in kept;
          var k :| 0 <= k < |front| && front[k] == kept[i];
          assert candidates[k] == kept[i];
        }
      }
    }
  }

  lemma AdmittedAreDistinct(plan: Plan, items: seq<Item>)
    ensures DistinctBy(Admitted(CandidatesOf(plan, items)), MintKey) && DistinctBy(Admitted(CandidatesOf(plan, items)), PoolKey)
  {
    var candidates := CandidatesOf(plan, items);
    forall i, j | 0 <= i < j < |candidates| && candidates[i].Admitted() && candidates[j].Admitted()
      ensures MintKey(candidates[i]) != MintKey(candidates[j]) && PoolKey(candidates[i]) != PoolKey(candidates[j])
    {
      AdmissionFunnel.AdmittedIdentitiesDistinct(Map(items, ObservationOf), 2 * plan.selectionCapacity, plan.cutoffAt, i, j);
    }
    AdmittedKeepsKeys(candidates, MintKey);
    AdmittedKeepsKeys(candidates, PoolKey);
  }

  /** All or none: the manifest holds exactly n items, numbered 1 to n, of n different admitted
      mints and n different pools when at least n candidates are admitted, and nothing otherwise. */
  lemma ManifestIsExact(rank: RankDigest, admitted: seq<AdmissionFunnel.Candidate>, n: nat)
    requires n > 0 && DistinctBy(admitted, MintKey) && DistinctBy(admitted, PoolKey)
    ensures var m := Manifest(rank, admitted, n);
            && |m| == (if |admitted| >= n then n else 0)
            && (forall i :: 0 <= i < |m| ==> m[i].ordinal == i + 1)
            && (forall i :: 0 <= i < |m| ==> exists c :: c in admitted && m[i].mint == c.mint && m[i].pool == c.pool)
            && (forall i, j :: 0 <= i < j < |m| ==> m[i].mint != m[j].mint && m[i].pool != m[j].pool)
  {
    if |admitted| >= n {
      var drawn, m := Drawn(rank, admitted), Manifest(rank, admitted, n);
      SortIsPermutation(admitted, DrawOrder(rank));
      PermutationDistinctBy(admitted, drawn, MintKey);
      PermutationDistinctBy(admitted, drawn, PoolKey);
      forall i | 0 <= i < |m| ensures exists c :: c in admitted && m[i].mint == c.mint && m[i].pool == c.pool {
        assert drawn[i] in drawn;
      }
      forall i, j | 0 <= i < j < |m| ensures m[i].mint != m[j].mint && m[i].pool != m[j].pool {
        assert MintKey(drawn[i]) != MintKey(drawn[j]) && PoolKey(drawn[i]) != PoolKey(drawn[j]);
      }
    }
  }

  lemma DrawOrderIsComparison(rank: RankDigest)
    ensures Comparison(DrawOrder(rank))
  {
    var le := DrawOrder(rank);
    forall x, y ensures le(x, y) || le(y, x) {
      KeyLeTotal([x.mint, Or(x.pool, "")], [y.mint, Or(y.pool, "")]);
    }
    forall x, y, z | le(x, y) && le(y, z) ensures le(x, z) {
      if rank(x) == rank(y) == rank(z) {
        KeyLeTransitive([x.mint, Or(x.pool, "")], [y.mint, Or(y.pool, "")], [z.mint, Or(z.pool, "")]);
      }
    }
  }

  /** The manifest holds the n admitted candidates of the lowest ranks, in rank order. */
  lemma ManifestByRank(rank: RankDigest, admitted: seq<AdmissionFunnel.Candidate>, n: nat) returns (drawn: seq<AdmissionFunnel.Candidate>)
    requires 0 < n <= |admitted|
    ensures multiset(drawn) == multiset(admitted) && |drawn| == |admitted|
    ensures forall i, j :: 0 <= i < j < |drawn| ==> rank(drawn[i]) <= rank(drawn[j])
    ensures |Manifest(rank, admitted, n)| == n
    ensures forall i :: 0 <= i < n ==> Manifest(rank, admitted, n)[i] == ManifestItem(i + 1, drawn[i].mint, drawn[i].pool)
  {
    drawn := Drawn(rank, admitted);
    DrawOrderIsComparison(rank);
    SortIsPermutation(admitted, DrawOrder(rank));
    SortIsSorted(admitted, DrawOrder(rank));
    forall i, j | 0 <= i < j < |drawn| ensures rank(drawn[i]) <= rank(drawn[j]) {
      assert DrawOrder(rank)(drawn[i], drawn[j]);
    }
  }

  // ---- One execution ----

  datatype Report = Report(
    executionId: string, policyHash: nat, inputHash: nat, success: bool, certificates: nat, admitted: nat,
    readiness: Readiness, manifest: seq<ManifestItem>)

  type InputDigest = (Plan, seq<Item>) -> nat

  ghost predicate InjectiveInput(digest: InputDigest) {
    forall p, q, a, b :: digest(p, a) == digest(q, b) ==> p == q && a == b
  }

  function ReportOf(plan: Plan, items: seq<Item>, input: InputDigest, rank: RankDigest): Report {
    var candidates := CandidatesOf(plan, items);
    var admitted := Admitted(candidates);
    var manifest := Manifest(rank, admitted, plan.selectionCapacity);
    Report(plan.executionId, plan.policyHash, input(plan, items), |manifest| == plan.selectionCapacity, |candidates|, |admitted|,
           ReadinessOf(|admitted|, plan.selectionCapacity), manifest)
  }

  /** What a report says of the execution besides its success: plan, input, one certificate for each
      candidate that was judged, and how many of them were admitted. */
  lemma ReportSays(plan: Plan, items: seq<Item>, input: InputDigest, rank: RankDigest)
    ensures var r := ReportOf(plan, items, input, rank);
            && r.executionId == plan.executionId && r.policyHash == plan.policyHash && r.inputHash == input(plan, items)
            && r.certificates == |CandidatesOf(plan, items)| && r.admitted == |Admitted(CandidatesOf(plan, items))|
  {
  }

  /** A success exactly when enough candidates were admitted; then the manifest has exactly n items,
      numbered from one, with distinct mints and distinct pools, and otherwise none. */
  ghost predicate ReportHolds(plan: Plan, items: seq<Item>, r: Report) {
    var admitted := Admitted(CandidatesOf(plan, items));
    && (r.success <==> |admitted| >= plan.selectionCapacity)
    && (r.success <==> r.readiness != NotReady)
    && |r.manifest| == (if r.success then plan.selectionCapacity else 0)
    && (forall i :: 0 <= i < |r.manifest| ==> r.manifest[i].ordinal == i + 1)
    && (forall i, j :: 0 <= i < j < |r.manifest| ==> r.manifest[i].mint != r.manifest[j].mint && r.manifest[i].pool != r.manifest[j].pool)
  }

  /** Builds the candidates, draws the manifest and concludes. */
  method BuildReport(plan: Plan, items: seq<Item>, input: InputDigest, rank: RankDigest) returns (report: Report)
    ensures report == ReportOf(plan, items, input, rank)
    ensures PlanValid(plan) ==> ReportHolds(plan, items, report)
  {
    if PlanValid(plan) {
      ReportIsExact(plan, items, input, rank);
    }
    var candidates := AdmissionFunnel.BuildCandidates(Map(items, ObservationOf), 2 * plan.selectionCapacity, plan.cutoffAt);
    var admitted := Admitted(candidates);
    var manifest := Manifest(rank, admitted, plan.selectionCapacity);
    return Report(plan.executionId, plan.policyHash, input(plan, items), |manifest| == plan.selectionCapacity,
                  |candidates|, |admitted|, ReadinessOf(|admitted|, plan.selectionCapacity), manifest);
  }

  datatype Failure =
    | InvalidPlan
    | BadInput(problem: Problem)
    | ReplayIdentityConflict
    | CursorFault(error: CursorHeads.CursorError)
    | DuplicateObservation

  function RangeOf(x: Item): CursorHeads.RangeItem {
    CursorHeads.RangeItem(x.content.ordinal, x.content.cursor)
  }

  /** The observations an execution is frozen on: normalized, then rechecked under the write lock. */
  function FrozenItems(env: Env, plan: Plan, raws: seq<Raw>, current: Current): Result<seq<Item>, Problem> {
    var normalized := Normalize(env, plan, raws);
    if normalized.Err? then normalized else Ok(Rechecked(env.digest, current, plan.cutoffAt, normalized.value))
  }

  method Freeze(env: Env, plan: Plan, raws: seq<Raw>, current: Current) returns (r: Result<seq<Item>, Problem>)
    ensures r == FrozenItems(env, plan, raws, current)
  {
    var normalized := NormalizeObservations(env, plan, raws);
    if normalized.Err? {
      return Err(normalized.error);
    }
    var items := AtomicTrackingAndCooldownRecheck(env.digest, current, plan.cutoffAt, normalized.value);
    return Ok(items);
  }

  predicate NoRepeats(items: seq<Item>) {
    forall i, j :: 0 <= i < j < |items| ==> items[i] != items[j]
  }

  /** No repeats means as many observations as there are different ones. */
  lemma NoRepeatsExactly(items: seq<Item>)
    ensures NoRepeats(items) <==> |set x | x in items| == |items|
  {
    if NoRepeats(items) {
      DistinctCardinality(items);
    } else {
      var i, j :| 0 <= i < j < |items| && items[i] == items[j];
      var rest := items[..j] + items[j + 1..];
      forall x | x in items ensures x in rest {
        var k :| 0 <= k < |items| && items[k] == x;
        assert if k < j then rest[k] == x else if k == j then rest[i] == x else rest[k - 1] == x;
      }
      assert (set x | x in items) == (set x | x in rest);
      MemberSetSmaller(rest);
    }
  }

  lemma {:induction false} MemberSetSmaller(items: seq<Item>)
    ensures |set x | x in items| <= |items|
  {
    if items != [] {
      var front, last := items[..|items| - 1], items[|items| - 1];
      MemberSetSmaller(front);
      assert items == front + [last];
      assert (set x | x in items) == (set x | x in front) + {last};
    } else {
      assert (set x | x in items) == {};
    }
  }

  /** What the write transaction accepts: ranges that start at the current heads and may advance, and
      no two identical observations. */
  ghost predicate Persistable(heads: CursorHeads.Heads, items: seq<Item>) {
    var ranges := Map(items, RangeOf);
    CursorHeads.RangesFit(heads, ranges) && NoRepeats(items) && CursorHeads.Committable(ranges, |ranges|)
  }

  class AcquisitionStore {
    var reports: map<string, Report>
    var manifests: map<string, seq<ManifestItem>>
    const cursors: CursorHeads.CursorTable

    constructor ()
      ensures reports == map[] && manifests == map[] && fresh(cursors) && cursors.Valid() && cursors.heads == map[]
    {
      reports, manifests := map[], map[];
      cursors := new CursorHeads.CursorTable();
    }

    /** Observations, ranges and cursor heads: validated first, then inserted, then advanced. */
    method StoreObservations(execution: string, items: seq<Item>) returns (f: Option<Failure>)
      requires cursors.Valid()
      modifies cursors
      ensures cursors.Valid()
      ensures f.None? <==> Persistable(old(cursors.heads), items)
      ensures f == Some(DuplicateObservation) <==> CursorHeads.RangesFit(old(cursors.heads), Map(items, RangeOf)) && !NoRepeats(items)
      ensures f.Some? ==> f.value.CursorFault? || f.value.DuplicateObservation?
      ensures f.Some? ==> cursors.heads == old(cursors.heads) && cursors.log == old(cursors.log)
      ensures f.None? ==> cursors.log == old(cursors.log) + CursorHeads.AdvancesOf(execution, Map(items, RangeOf))
    {
      var ranges := Map(items, RangeOf);
      var stale := cursors.ValidateCurrentCursorHeads(ranges);
      if stale.Some? {
        return Some(CursorFault(stale.value));
      }
      if !NoRepeats(items) {
        return Some(DuplicateObservation);
      }
      var blocked := cursors.CommitExecution(execution, ranges);
      return if blocked.Some? then Some(CursorFault(blocked.value)) else None;
    }

    /** The report, and the manifest of a successful one. */
    method StoreReport(report: Report)
      modifies this`reports, this`manifests
      ensures reports == old(reports)[report.executionId := report]
      ensures manifests == (if report.success then old(manifests)[report.executionId := report.manifest] else old(manifests))
    {
      if report.success {
        manifests := manifests[report.executionId := report.manifest];
      }
      reports := reports[report.executionId := report];
    }

    /** Runs one execution in one transaction, or answers a replay from the stored report. */
    method RunCandidateAcquisition(env: Env, plan: Plan, raws: seq<Raw>, current: Current, input: InputDigest, rank: RankDigest)
      returns (r: Result<Report, Failure>)
      requires cursors.Valid()
      modifies this, cursors
      ensures cursors.Valid()
      ensures r.Err? || plan.executionId in old(reports) ==>
                reports == old(reports) && manifests == old(manifests) && cursors.heads == old(cursors.heads) && cursors.log == old(cursors.log)
      ensures r.Ok? <==>
                && PlanValid(plan) && FrozenItems(env, plan, raws, current).Ok?
                && var items := FrozenItems(env, plan, raws, current).value;
                   if plan.executionId in old(reports) then old(reports)[plan.executionId].inputHash == input(plan, items)
                   else Persistable(old(cursors.heads), items)
      ensures r.Ok? && plan.executionId in old(reports) ==>
                r.value == old(reports)[plan.executionId]
      ensures r.Ok? && plan.executionId !in old(reports) ==>
                && r.value == ReportOf(plan, FrozenItems(env, plan, raws, current).value, input, rank)
                && reports == old(reports)[plan.executionId := r.value]
                && manifests == (if r.value.success then old(manifests)[plan.executionId := r.value.manifest] else old(manifests))
                && cursors.log == old(cursors.log)
                                  + CursorHeads.AdvancesOf(plan.executionId, Map(FrozenItems(env, plan, raws, current).value, RangeOf))
      ensures r == Err(InvalidPlan) <==> !(1 <= plan.selectionCapacity <= 16)
      ensures PlanValid(plan) && FrozenItems(env, plan, raws, current).Err? ==> r == Err(BadInput(FrozenItems(env, plan, raws, current).error))
      ensures r == Err(ReplayIdentityConflict) <==>
                && PlanValid(plan) && plan.executionId in old(reports) && FrozenItems(env, plan, raws, current).Ok?
                && old(reports)[plan.executionId].inputHash != input(plan, FrozenItems(env, plan, raws, current).value)
    {
      if !PlanValid(plan) {
        return Err(InvalidPlan);
      }
      var frozen := Freeze(env, plan, raws, current);
      if frozen.Err? {
        return Err(BadInput(frozen.error));
      }
      var items := frozen.value;
      if plan.executionId in reports {
        if reports[plan.executionId].inputHash != input(plan, items) {
          return Err(ReplayIdentityConflict);
        }
        return Ok(reports[plan.executionId]);
      }
      var failure := StoreObservations(plan.executionId, items);
      if failure.Some? {
        return Err(failure.value);
      }
      var report := BuildReport(plan, items, input, rank);
      StoreReport(report);
      return Ok(report);
    }
  }

  // ---- Order independence and replay ----

  /** An execution does not depend on the order of its observations: if one ordering is accepted,
      every permutation gives the same items, report, manifest and cursor advances. */
  lemma ExecutionIgnoresOrder(env: Env, plan: Plan, a: seq<Raw>, b: seq<Raw>, current: Current, input: InputDigest, rank: RankDigest)
    requires InjectiveDigest(env.digest) && multiset(a) == multiset(b) && Normalize(env, plan, a).Ok?
    ensures FrozenItems(env, plan, a, current) == FrozenItems(env, plan, b, current) && FrozenItems(env, plan, b, current).Ok?
    ensures var x, y := FrozenItems(env, plan, a, current).value, FrozenItems(env, plan, b, current).value;
            && ReportOf(plan, x, input, rank) == ReportOf(plan, y, input, rank)
            && CursorHeads.AdvancesOf(plan.executionId, Map(x, RangeOf)) == CursorHeads.AdvancesOf(plan.executionId, Map(y, RangeOf))
  {
    NormalizeIgnoresOrder(env, plan, a, b);
  }

  /** A replay, in any observation order, meets the stored input hash exactly when everything the
      recheck reads about the named observations is as it was at the first run. */
  lemma ReplaySucceedsExactly(env: Env, plan: Plan, a: seq<Raw>, b: seq<Raw>, before: Current, after: Current, input: InputDigest, stored: Report)
    requires InjectiveDigest(env.digest) && InjectiveInput(input) && multiset(a) == multiset(b) && Normalize(env, plan, a).Ok?
    requires stored.inputHash == input(plan, FrozenItems(env, plan, a, before).value)
    ensures Normalize(env, plan, b).Ok?
    ensures stored.inputHash == input(plan, FrozenItems(env, plan, b, after).value)
            <==> SameFacts(before, after, Normalize(env, plan, a).value)
  {
    NormalizeIgnoresOrder(env, plan, a, b);
    RecheckAgreesExactly(env.digest, before, after, plan.cutoffAt, Normalize(env, plan, a).value);
  }

  /** The replay of an unchanged execution conflicts as soon as any batch was recorded in between:
      the next batch sequence is part of every named observation's content. */
  lemma ReplayConflictsAfterRotation(env: Env, plan: Plan, raws: seq<Raw>, before: Current, after: Current, input: InputDigest, stored: Report, x: Item)
    requires InjectiveDigest(env.digest) && InjectiveInput(input) && Normalize(env, plan, raws).Ok?
    requires stored.inputHash == input(plan, FrozenItems(env, plan, raws, before).value)
    requires x in Normalize(env, plan, raws).value && Named(x.content) && before.nextBatchSeq != after.nextBatchSeq
    ensures stored.inputHash != input(plan, FrozenItems(env, plan, raws, after).value)
  {
    ReplaySucceedsExactly(env, plan, raws, raws, before, after, input, stored);
  }

  /** In terms of the rotation table: one batch recorded between two runs of the same plan is enough,
      whatever the tracking queue says. */
  lemma ReplayConflictsAfterBatch(
    env: Env, plan: Plan, raws: seq<Raw>, before: Current, after: Current, input: InputDigest, stored: Report, x: Item,
    rows: SelectionRotation.Table, items: seq<SelectionRotation.Item>, id: string, seqNo: int,
    fast: seq<TrackingHandoff.QueueRow>, normal: seq<TrackingHandoff.QueueRow>,
    laterFast: seq<TrackingHandoff.QueueRow>, laterNormal: seq<TrackingHandoff.QueueRow>)
    requires InjectiveDigest(env.digest) && InjectiveInput(input) && Normalize(env, plan, raws).Ok?
    requires stored.inputHash == input(plan, FrozenItems(env, plan, raws, before).value)
    requires x in Normalize(env, plan, raws).value && Named(x.content)
    requires ReadFrom(before, rows, fast, normal, plan.cutoffAt)
    requires ReadFrom(after, SelectionRotation.RecordAll(rows, items, id, seqNo), laterFast, laterNormal, plan.cutoffAt)
    requires seqNo >= before.nextBatchSeq && exists i :: 0 <= i < |items| && SelectionRotation.Recorded(items[i])
    ensures stored.inputHash != input(plan, FrozenItems(env, plan, raws, after).value)
  {
    SelectionRotation.RecordingRaisesNext(rows, items, id, seqNo, before.nextBatchSeq, after.nextBatchSeq);
    ReplayConflictsAfterRotation(env, plan, raws, before, after, input, stored, x);
  }

  /** A report is a success exactly when enough candidates were admitted, and then its manifest has
      exactly n items of distinct admitted identities. */
  lemma ReportIsExact(plan: Plan, items: seq<Item>, input: InputDigest, rank: RankDigest)
    requires PlanValid(plan)
    ensures ReportHolds(plan, items, ReportOf(plan, items, input, rank))
  {
    AdmittedAreDistinct(plan, items);
    ManifestIsExact(rank, Admitted(CandidatesOf(plan, items)), plan.selectionCapacity);
  }

  // ---- Tokens held back by tracking ----

  /** Nothing blocks a token exactly when both tracking lanes would take it and both cooldowns are over. */
  lemma FreeExactly(
    current: Current, rows: SelectionRotation.Table, fast: seq<TrackingHandoff.QueueRow>, normal: seq<TrackingHandoff.QueueRow>, now: int,
    mint: string, pool: string)
    requires ReadFrom(current, rows, fast, normal, now)
    ensures current.blocking(mint, pool) == {}
            <==> && !TrackingHandoff.Assess(fast, mint, pool, now).Refused? && !TrackingHandoff.Assess(normal, mint, pool, now).Refused?
                 && SelectionRotation.TokenGate(rows, mint, current.nextBatchSeq, 3)
                 && SelectionRotation.PairGate(rows, pool, current.nextBatchSeq, 3)
  {
    var lanes, gates := LaneReasons(fast, mint, pool, now) + LaneReasons(normal, mint, pool, now), CooldownReasons(rows, mint, pool, current.nextBatchSeq);
    assert "TOKEN_SELECTION_COOLDOWN" in gates <==> !SelectionRotation.TokenGate(rows, mint, current.nextBatchSeq, SelectionRotation.COOLDOWN_WINDOW)
                                                    by { assert "TOKEN_SELECTION_COOLDOWN"[0] != "PAIR_SELECTION_COOLDOWN"[0]; }
    assert current.blocking(mint, pool) == lanes + gates;
  }

  lemma BlockedObservationFails(observations: seq<AdmissionFunnel.Observation>, mint: string, cutoff: int, o: AdmissionFunnel.Observation)
    requires o in observations && o.mint == Some(mint)
    requires AdmissionFunnel.SaysStatus(o, AdmissionFunnel.IdentityAvailable, "FAIL")
    ensures !AdmissionFunnel.IsAdmissible(observations, mint, cutoff)
  {
    AdmissionFunnel.StatusTextsDiffer();
    var group := AdmissionFunnel.GroupOf(observations, mint);
    assert o in group;
    var i :| 0 <= i < |group| && group[i] == o;
    assert !AdmissionFunnel.StatedPass(group, AdmissionFunnel.IdentityAvailable);
  }

  /** The mint has a named observation that tracking or a cooldown blocks. */
  ghost predicate HeldBack(current: Current, items: seq<Item>, mint: string) {
    exists x :: x in items && Named(x.content) && x.content.names.mint == Some(mint) && current.blocking(mint, x.content.names.pool.value) != {}
  }

  /** After the recheck some observation of the mint says FAIL. */
  lemma HeldBackIsStated(digest: ContentDigest, current: Current, cutoff: int, items: seq<Item>, mint: string) returns (o: AdmissionFunnel.Observation)
    requires HeldBack(current, items, mint)
    ensures o in Map(Rechecked(digest, current, cutoff, items), ObservationOf) && o.mint == Some(mint)
    ensures AdmissionFunnel.SaysStatus(o, AdmissionFunnel.IdentityAvailable, "FAIL")
  {
    var x :| x in items && Named(x.content) && x.content.names.mint == Some(mint) && current.blocking(mint, x.content.names.pool.value) != {};
    var y := ItemIsRechecked(digest, current, cutoff, items, x);
    o := ObservationOf(y);
    BlockedItemFails(current, cutoff, x, y);
    MapHolds(Rechecked(digest, current, cutoff, items), y);
  }

  lemma MapHolds(items: seq<Item>, y: Item)
    requires y in items
    ensures ObservationOf(y) in Map(items, ObservationOf)
  {
    var i :| 0 <= i < |items| && items[i] == y;
    assert Map(items, ObservationOf)[i] == ObservationOf(y);
  }

  lemma BlockedItemFails(current: Current, cutoff: int, x: Item, y: Item)
    requires Named(x.content) && current.blocking(x.content.names.mint.value, x.content.names.pool.value) != {}
    requires RecheckedFrom(current, cutoff, x.content, y.content)
    ensures ObservationOf(y).mint == x.content.names.mint
    ensures AdmissionFunnel.SaysStatus(ObservationOf(y), AdmissionFunnel.IdentityAvailable, "FAIL")
  {
  }

  lemma HeldBackIsNotAdmitted(digest: ContentDigest, plan: Plan, items: seq<Item>, current: Current, mint: string)
    requires HeldBack(current, items, mint)
    ensures forall c :: c in CandidatesOf(plan, Rechecked(digest, current, plan.cutoffAt, items)) && c.mint == mint ==> !c.Admitted()
  {
    var frozen := Rechecked(digest, current, plan.cutoffAt, items);
    var o := HeldBackIsStated(digest, current, plan.cutoffAt, items, mint);
    StatedFailIsNotAdmitted(plan, frozen, mint, o);
  }

  lemma StatedFailIsNotAdmitted(plan: Plan, frozen: seq<Item>, mint: string, o: AdmissionFunnel.Observation)
    requires o in Map(frozen, ObservationOf) && o.mint == Some(mint)
    requires AdmissionFunnel.SaysStatus(o, AdmissionFunnel.IdentityAvailable, "FAIL")
    ensures forall c :: c in CandidatesOf(plan, frozen) && c.mint == mint ==> !c.Admitted()
  {
    var observations, candidates := Map(frozen, ObservationOf), CandidatesOf(plan, frozen);
    BlockedObservationFails(observations, mint, plan.cutoffAt, o);
    AdmissionFunnel.CandidatesAreAdmissible(observations, 2 * plan.selectionCapacity, plan.cutoffAt);
    forall c | c in candidates && c.mint == mint ensures !c.Admitted() {
      var i :| 0 <= i < |candidates| && candidates[i] == c;
    }
  }

  /** No mint that is held back enters the manifest of the run, whatever its other observations say. */
  lemma HeldBackIsNotSelected(
    env: Env, plan: Plan, raws: seq<Raw>, current: Current, input: InputDigest, rank: RankDigest, mint: string, normalized: seq<Item>)
    requires PlanValid(plan) && Normalize(env, plan, raws) == Ok(normalized) && HeldBack(current, normalized, mint)
    ensures var report := ReportOf(plan, FrozenItems(env, plan, raws, current).value, input, rank);
            forall i :: 0 <= i < |report.manifest| ==> report.manifest[i].mint != mint
  {
    HeldBackIsNotListed(env.digest, plan, normalized, current, input, rank, mint);
  }

  lemma HeldBackIsNotListed(
    digest: ContentDigest, plan: Plan, items: seq<Item>, current: Current, input: InputDigest, rank: RankDigest, mint: string)
    requires PlanValid(plan) && HeldBack(current, items, mint)
    ensures var report := ReportOf(plan, Rechecked(digest, current, plan.cutoffAt, items), input, rank);
            forall i :: 0 <= i < |report.manifest| ==> report.manifest[i].mint != mint
  {
    HeldBackIsNotAdmitted(digest, plan, items, current, mint);
    NotInReport(plan, Rechecked(digest, current, plan.cutoffAt, items), input, rank, mint);
  }

  lemma NotInReport(plan: Plan, items: seq<Item>, input: InputDigest, rank: RankDigest, mint: string)
    requires PlanValid(plan) && forall c :: c in CandidatesOf(plan, items) && c.mint == mint ==> !c.Admitted()
    ensures var report := ReportOf(plan, items, input, rank);
            forall i :: 0 <= i < |report.manifest| ==> report.manifest[i].mint != mint
  {
    var admitted := Admitted(CandidatesOf(plan, items));
    AdmittedAreDistinct(plan, items);
    NotInManifest(rank, admitted, plan.selectionCapacity, mint);
  }

  lemma NotInManifest(rank: RankDigest, admitted: seq<AdmissionFunnel.Candidate>, n: nat, mint: string)
    requires n > 0 && DistinctBy(admitted, MintKey) && DistinctBy(admitted, PoolKey)
    requires forall c :: c in admitted ==> c.mint != mint
    ensures var m := Manifest(rank, admitted, n); forall i :: 0 <= i < |m| ==> m[i].mint != mint
  {
    ManifestIsExact(rank, admitted, n);
  }
}
