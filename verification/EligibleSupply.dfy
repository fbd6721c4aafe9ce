/** The persistent eligible-supply campaign: bounded rounds over the graduated inventory under an
    operation budget, a round cap and a deadline, with a durable reserve that every campaign must
    revalidate. */
module EligibleSupply {
  import opened Common
  import opened RefreshBatch
  import opened LiquidityFrontDoor
  import opened ShortageVerdict
  import IdentityKeys

  // ---- Inputs ----

  datatype Config = Config(
    cycleSeed: string, campaignId: string, now: int, requiredCapacity: int, evaluationBatchSize: int,
    operationBudget: int, deadline: Option<int>, trackingPrecheck: bool)

  datatype FailureFact = FailureFact(source: string, requestKind: string, id: nat)

  /** A governed failure of the locator or migration stage, with the channel it makes unavailable. */
  datatype GovernedFailure = GovernedFailure(fact: FailureFact, channel: string)

  /** Everything the campaign reads from elsewhere: registry contents at each export (0 is the
      start, k the k-th round), market answers per round, tracking state, clock readings. */
  datatype World = World(
    registry: nat -> seq<Row>,
    latestMints: set<string>,
    digest: SeededDigest,
    market: nat -> Market,
    trackingEligible: Row -> bool,
    clock: nat -> int,
    failureOwner: nat -> Option<(string, string)>,
    governedFailures: seq<GovernedFailure>,
    stageOperations: nat)

  datatype Fault = MissingCycleSeed | InvalidRequiredCapacity | InvalidEvaluationBatchSize | SourceFailureLineageMissing(id: nat)

  // ---- Durable reserve ----

  datatype ReserveStatus = EligibleFresh | EligibleStale | Removed | Excluded

  datatype ReserveRow = ReserveRow(
    pool: string, usd: Option<real>, liquidityStatus: LiquidityStatus, status: ReserveStatus,
    lastValidatedAt: int, lastCampaignId: string)

  type Reserve = map<string, ReserveRow>

  predicate Live(row: ReserveRow) {
    row.status in {EligibleFresh, EligibleStale}
  }

  // ---- The campaign's running account ----

  /** `roundStart` is the number of operations used when the last round began. */
  datatype Campaign = Campaign(
    operations: nat,
    blocked: set<string>,
    evaluated: set<string>,
    eligible: map<string, Candidate>,
    candidates: seq<Candidate>,
    outcomes: map<OutcomeCategory, nat>,
    failures: set<FailureFact>,
    channelsUnavailable: set<string>,
    rounds: nat,
    roundStart: nat,
    duplicates: nat)

  const MARKET_CHANNEL := "dexscreener_exact_pool_market"

  function Mints(rows: seq<Row>): set<string> {
    set r | r in rows :: r.mint
  }

  function CandidateMint(c: Candidate): string {
    c.row.mint
  }

  function CandidateMints(candidates: seq<Candidate>): set<string> {
    set c | c in candidates :: c.row.mint
  }

  function Get<K>(counts: map<K, nat>, k: K): nat {
    if k in counts then counts[k] else 0
  }

  function CountOutcome(candidates: seq<Candidate>, category: OutcomeCategory): nat {
    if candidates == [] then 0
    else
      CountOutcome(candidates[..|candidates| - 1], category)
      + if candidates[|candidates| - 1].evidence.outcome == category then 1 else 0
  }

  predicate IsSourceFault(category: OutcomeCategory) {
    category in {SourceUnavailable, SourceRateLimitedOrStale, ResponseMalformedOrPartial}
  }

  lemma {:induction false} CountOutcomePositive(candidates: seq<Candidate>, category: OutcomeCategory)
    ensures CountOutcome(candidates, category) > 0 <==> exists i :: 0 <= i < |candidates| && candidates[i].evidence.outcome == category
  {
    if candidates != [] {
      var front := candidates[..|candidates| - 1];
      CountOutcomePositive(front, category);
      if i :| 0 <= i < |front| && front[i].evidence.outcome == category {
        assert candidates[i] == front[i];
      }
      if i :| 0 <= i < |candidates| && candidates[i].evidence.outcome == category {
        if i < |front| { assert front[i] == candidates[i]; }
      }
    }
  }

  // ---- Specification of the admission loop ----

  function FreshRow(cfg: Config, c: Candidate): ReserveRow {
    ReserveRow(c.row.pool, c.evidence.usd, c.evidence.status, EligibleFresh, cfg.now, cfg.campaignId)
  }

  predicate Skipped(c: Campaign, candidate: Candidate) {
    candidate.row.mint == "" || candidate.row.mint in c.evaluated
  }

  function Admit(c: Campaign, candidate: Candidate): Campaign {
    var mint := candidate.row.mint;
    if mint == "" then c
    else if mint in c.evaluated then c.(duplicates := c.duplicates + 1)
    else
      c.(evaluated := c.evaluated + {mint},
      candidates := c.candidates + [candidate],
      eligible := if candidate.Eligible() then c.eligible[mint := candidate] else c.eligible - {mint})
  }

  function AdmitAll(c: Campaign, batch: seq<Candidate>): (d: Campaign)
    ensures d.rounds == c.rounds
    decreases |batch|
  {
    if batch == [] then c else Admit(AdmitAll(c, batch[..|batch| - 1]), batch[|batch| - 1])
  }

  function WithStatus(reserve: Reserve, mint: string, status: ReserveStatus): Reserve {
    if mint in reserve then reserve[mint := reserve[mint].(status := status)] else reserve
  }

  function ReserveAdmit(cfg: Config, prior: set<string>, reserve: Reserve, c: Campaign, candidate: Candidate): Reserve {
    var mint := candidate.row.mint;
    if Skipped(c, candidate) then reserve
    else if candidate.Eligible() then reserve[mint := FreshRow(cfg, candidate)]
    else if mint in prior then WithStatus(reserve, mint, Removed)
    else reserve
  }

  function ReserveAdmitAll(cfg: Config, prior: set<string>, reserve: Reserve, c: Campaign, batch: seq<Candidate>): Reserve
    decreases |batch|
  {
    if batch == [] then reserve
    else
      var front := batch[..|batch| - 1];
      ReserveAdmit(cfg, prior, ReserveAdmitAll(cfg, prior, reserve, c, front), AdmitAll(c, front), batch[|batch| - 1])
  }

  // ---- What the account means ----

  /** Every evaluated mint is a blocked mint or exactly one recorded candidate. */
  ghost predicate Ledger(c: Campaign) {
    && c.evaluated == c.blocked + CandidateMints(c.candidates)
    && DistinctBy(c.candidates, CandidateMint)
    && (forall x :: x in c.candidates ==> x.row.mint !in c.blocked && x.row.mint != "")
    && (forall m :: m in c.eligible ==> c.eligible[m] in c.candidates && c.eligible[m].Eligible() && c.eligible[m].row.mint == m)
    && (forall x :: x in c.candidates && x.Eligible() ==> x.row.mint in c.eligible)
  }

  ghost predicate OutcomesCounted(c: Campaign) {
    forall category :: Get(c.outcomes, category) == CountOutcome(c.candidates, category)
  }

  /** What one mint's durable row must be, given the row the campaign started from. */
  function RowAfter(cfg: Config, start: Option<ReserveRow>, c: Campaign, mint: string): Option<ReserveRow> {
    if mint in c.eligible then Some(FreshRow(cfg, c.eligible[mint]))
    else if start.None? || !Live(start.value) then start
    else if mint in c.blocked then Some(start.value.(status := Excluded))
    else if mint in c.evaluated then Some(start.value.(status := Removed))
    else Some(start.value.(status := EligibleStale))
  }

  function Lookup(reserve: Reserve, mint: string): Option<ReserveRow> {
    if mint in reserve then Some(reserve[mint]) else None
  }

  ghost predicate ReserveFollows(cfg: Config, start: Reserve, c: Campaign, reserve: Reserve) {
    forall m :: Lookup(reserve, m) == RowAfter(cfg, Lookup(start, m), c, m)
  }

  function LiveMints(reserve: Reserve): set<string> {
    set m | m in reserve && Live(reserve[m])
  }

  /** A batch of new, named, distinct mints. */
  ghost predicate NewBatch(c: Campaign, batch: seq<Candidate>) {
    && DistinctBy(batch, CandidateMint)
    && forall x :: x in batch ==> x.row.mint !in c.evaluated && x.row.mint != ""
  }

  lemma AdmitOne(cfg: Config, start: Reserve, c: Campaign, candidate: Candidate, reserve: Reserve)
    requires Ledger(c) && ReserveFollows(cfg, start, c, reserve)
    requires candidate.row.mint != "" && candidate.row.mint !in c.evaluated
    ensures Ledger(Admit(c, candidate))
    ensures ReserveFollows(cfg, start, Admit(c, candidate), ReserveAdmit(cfg, LiveMints(start), reserve, c, candidate))
    ensures Admit(c, candidate).candidates == c.candidates + [candidate]
  {
    var d := Admit(c, candidate);
    LedgerExtends(c, candidate);
    var after := ReserveAdmit(cfg, LiveMints(start), reserve, c, candidate);
    forall m ensures Lookup(after, m) == RowAfter(cfg, Lookup(start, m), d, m) {
      assert Lookup(reserve, m) == RowAfter(cfg, Lookup(start, m), c, m);
      if m != candidate.row.mint {
        assert m in d.evaluated <==> m in c.evaluated;
        assert m in d.eligible <==> m in c.eligible;
      }
    }
  }

  lemma LedgerExtends(c: Campaign, candidate: Candidate)
    requires Ledger(c) && candidate.row.mint != "" && candidate.row.mint !in c.evaluated
    ensures Ledger(Admit(c, candidate))
  {
    var d := Admit(c, candidate);
    var mint := candidate.row.mint;
    assert forall x :: x in d.candidates <==> x in c.candidates || x == candidate;
    assert CandidateMints(d.candidates) == CandidateMints(c.candidates) + {mint};
    assert mint !in CandidateMints(c.candidates);
    assert DistinctBy(d.candidates, CandidateMint) by {
      forall i | 0 <= i < |c.candidates| ensures c.candidates[i].row.mint != mint {
        assert c.candidates[i] in c.candidates;
      }
    }
  }

  lemma NewBatchFront(c: Campaign, batch: seq<Candidate>)
    requires batch != [] && NewBatch(c, batch)
    ensures NewBatch(c, batch[..|batch| - 1])
    ensures batch[|batch| - 1].row.mint !in CandidateMints(batch[..|batch| - 1])
    ensures CandidateMints(batch) == CandidateMints(batch[..|batch| - 1]) + {batch[|batch| - 1].row.mint}
  {
    var front, last := batch[..|batch| - 1], batch[|batch| - 1];
    assert batch == front + [last];
  }

  /** A batch of new mints is recorded in full: nothing is dropped as a duplicate. */
  lemma {:induction false} AdmitAllRecords(c: Campaign, batch: seq<Candidate>)
    requires NewBatch(c, batch)
    ensures AdmitAll(c, batch)
         == c.(evaluated := c.evaluated + CandidateMints(batch), candidates := c.candidates + batch, eligible := AdmitAll(c, batch).eligible)
    decreases |batch|
  {
    if batch == [] {
      assert c.candidates + batch == c.candidates;
      assert c.evaluated + CandidateMints(batch) == c.evaluated;
    } else {
      var front, last := batch[..|batch| - 1], batch[|batch| - 1];
      assert c.candidates + batch == c.candidates + front + [last];
      NewBatchFront(c, batch);
      AdmitAllRecords(c, front);
    }
  }

  lemma {:induction false} AdmitAllKeeps(cfg: Config, start: Reserve, c: Campaign, batch: seq<Candidate>, reserve: Reserve)
    requires Ledger(c) && ReserveFollows(cfg, start, c, reserve) && NewBatch(c, batch)
    ensures Ledger(AdmitAll(c, batch))
    ensures ReserveFollows(cfg, start, AdmitAll(c, batch), ReserveAdmitAll(cfg, LiveMints(start), reserve, c, batch))
    decreases |batch|
  {
    if batch != [] {
      var front, last := batch[..|batch| - 1], batch[|batch| - 1];
      NewBatchFront(c, batch);
      AdmitAllKeeps(cfg, start, c, front, reserve);
      AdmitAllRecords(c, front);
      AdmitOne(cfg, start, AdmitAll(c, front), last, ReserveAdmitAll(cfg, LiveMints(start), reserve, c, front));
    }
  }

  // ---- The durable store and the methods that change it ----

  predicate Blocked(cfg: Config, world: World, row: Row) {
    cfg.trackingPrecheck && !world.trackingEligible(row)
  }

  function BlockedMints(cfg: Config, world: World, rows: seq<Row>): set<string> {
    set r | r in rows && Blocked(cfg, world, r) :: r.mint
  }

  /** A mint is blocked exactly when the precheck is on and tracking holds a registered row of it. */
  lemma BlockedExactly(cfg: Config, world: World, rows: seq<Row>, mint: string)
    ensures mint in BlockedMints(cfg, world, rows)
            <==> cfg.trackingPrecheck && exists i :: 0 <= i < |rows| && rows[i].mint == mint && !world.trackingEligible(rows[i])
  {
    if mint in BlockedMints(cfg, world, rows) {
      var r :| r in rows && Blocked(cfg, world, r) && r.mint == mint;
      var i :| 0 <= i < |rows| && rows[i] == r;
    }
    if i :| 0 <= i < |rows| && rows[i].mint == mint && !world.trackingEligible(rows[i]) && cfg.trackingPrecheck {
      assert rows[i] in rows;
    }
  }

  function MarkedStale(reserve: Reserve): Reserve {
    map m | m in reserve :: if Live(reserve[m]) then reserve[m].(status := EligibleStale) else reserve[m]
  }

  function MarkedExcluded(reserve: Reserve, mints: set<string>): Reserve {
    map m | m in reserve :: if m in mints then reserve[m].(status := Excluded) else reserve[m]
  }

  class SupplyStore {
    var reserve: Reserve
    const floor: MarketFloor

    constructor (floor: MarketFloor)
      ensures this.floor == floor && reserve == map[]
    {
      this.floor := floor;
      reserve := map[];
    }

    /** Every fresh or stale row loses its freshness before the campaign starts. */
    method MarkPriorReserveStale() returns (prior: set<string>)
      modifies this`reserve
      ensures prior == LiveMints(old(reserve))
      ensures reserve == MarkedStale(old(reserve))
    {
      prior := set m | m in reserve && Live(reserve[m]);
      var todo := prior;
      while todo != {}
        invariant todo <= prior
        invariant reserve.Keys == old(reserve.Keys)
        invariant forall m :: m in reserve ==>
                    reserve[m] == if m in prior - todo then old(reserve)[m].(status := EligibleStale) else old(reserve)[m]
        decreases todo
      {
        var m :| m in todo;
        reserve := reserve[m := reserve[m].(status := EligibleStale)];
        todo := todo - {m};
      }
    }

    /** Tokens that tracking already holds are excluded before any market call is spent on them. */
    method TrackingPrecheck(cfg: Config, world: World, rows: seq<Row>, prior: set<string>) returns (blocked: set<string>)
      modifies this`reserve
      ensures blocked == BlockedMints(cfg, world, rows)
      ensures reserve == MarkedExcluded(old(reserve), blocked * prior)
    {
      blocked := {};
      assert MarkedExcluded(reserve, {}) == reserve;
      if !cfg.trackingPrecheck {
        return;
      }
      for i := 0 to |rows|
        invariant blocked == BlockedMints(cfg, world, rows[..i])
        invariant reserve == MarkedExcluded(old(reserve), blocked * prior)
      {
        assert rows[..i + 1] == rows[..i] + [rows[i]];
        var row := rows[i];
        if world.trackingEligible(row) {
          continue;
        }
        blocked := blocked + {row.mint};
        if row.mint in prior {
          reserve := WithStatus(reserve, row.mint, Excluded);
        }
      }
      assert rows[..|rows|] == rows;
    }

    /** The admission loop of one round. */
    method AdmitBatch(cfg: Config, c: Campaign, batch: seq<Candidate>, prior: set<string>) returns (d: Campaign)
      modifies this`reserve
      ensures d == AdmitAll(c, batch)
      ensures reserve == ReserveAdmitAll(cfg, prior, old(reserve), c, batch)
    {
      assert batch[..|batch|] == batch;
      d := c;
      for i := 0 to |batch|
        invariant d == AdmitAll(c, batch[..i])
        invariant reserve == ReserveAdmitAll(cfg, prior, old(reserve), c, batch[..i])
      {
        assert batch[..i + 1][..i] == batch[..i];
        var candidate := batch[i];
        var mint := candidate.row.mint;
        if mint == "" {
          continue;
        }
        if mint in d.evaluated {
          d := d.(duplicates := d.duplicates + 1);
          continue;
        }
        d := d.(evaluated := d.evaluated + {mint}, candidates := d.candidates + [candidate]);
        if candidate.Eligible() {
          d := d.(eligible := d.eligible[mint := candidate]);
          reserve := reserve[mint := FreshRow(cfg, candidate)];
        } else {
          d := d.(eligible := d.eligible - {mint});
          if mint in prior {
            reserve := WithStatus(reserve, mint, Removed);
          }
        }
      }
    }
  }

  // ---- Outcome counts of one round ----

  ghost predicate FaultSeen(c: Campaign) {
    exists category :: IsSourceFault(category) && Get(c.outcomes, category) > 0
  }

  /** What counting a batch does to the account. */
  ghost predicate Counts(c: Campaign, d: Campaign, batch: seq<Candidate>) {
    && d == c.(outcomes := d.outcomes, failures := d.failures, channelsUnavailable := d.channelsUnavailable)
    && c.failures <= d.failures
    && (forall category :: Get(d.outcomes, category) == Get(c.outcomes, category) + CountOutcome(batch, category))
    && d.channelsUnavailable == c.channelsUnavailable + if FaultSeen(d) then {MARKET_CHANNEL} else {}
  }

  /** What a round does to the account before its batch is admitted. */
  ghost predicate Counted(c: Campaign, d: Campaign, batch: seq<Candidate>) {
    Counts(c.(rounds := c.rounds + 1, roundStart := c.operations, operations := c.operations + MarketCalls(batch)), d, batch)
  }

  function FailureFactOf(world: World, id: nat): FailureFact
    requires world.failureOwner(id).Some?
  {
    FailureFact(world.failureOwner(id).value.0, world.failureOwner(id).value.1, id)
  }

  ghost predicate OwnersKnown(world: World, batch: seq<Candidate>) {
    forall i :: 0 <= i < |batch| && batch[i].evidence.failureId.Some? ==> world.failureOwner(batch[i].evidence.failureId.value).Some?
  }

  /** The one fault that counting a batch raises: a failure that no governed source owns. Faults
      raised inside the front door are not part of this model. */
  ghost predicate LineageMissing(world: World, fault: Fault) {
    fault.SourceFailureLineageMissing? && world.failureOwner(fault.id).None?
  }

  datatype Tally = Tally(outcomes: map<OutcomeCategory, nat>, failures: set<FailureFact>)

  /** One candidate's outcome and, where it failed, the governed owner of the failure. */
  function Attribute(world: World): (nat, Candidate, Tally) -> Result<Tally, Fault> {
    (i: nat, candidate: Candidate, t: Tally) =>
      var e := candidate.evidence;
      if e.failureId.Some? && world.failureOwner(e.failureId.value).None? then Err(SourceFailureLineageMissing(e.failureId.value))
      else
        Ok(Tally(t.outcomes[e.outcome := Get(t.outcomes, e.outcome) + 1],
                 if e.failureId.Some? then t.failures + {FailureFactOf(world, e.failureId.value)} else t.failures))
  }

  function MarketChannels(outcomes: map<OutcomeCategory, nat>): set<string> {
    if Get(outcomes, SourceUnavailable) > 0 || Get(outcomes, SourceRateLimitedOrStale) > 0 || Get(outcomes, ResponseMalformedOrPartial) > 0
    then {MARKET_CHANNEL} else {}
  }

  /** The account after a batch was counted, or the first failure without an owner. */
  function CountedBatch(world: World, c: Campaign, batch: seq<Candidate>): Result<Campaign, Fault> {
    var t := RunSteps(batch, Attribute(world), Tally(c.outcomes, c.failures));
    if t.Err? then Err(t.error)
    else Ok(c.(outcomes := t.value.outcomes, failures := t.value.failures,
                channelsUnavailable := c.channelsUnavailable + MarketChannels(t.value.outcomes)))
  }

  /** Counts the outcomes of a batch and attributes its failures; a failure without a governed
      owner aborts the campaign. */
  method CountOutcomes(world: World, c: Campaign, batch: seq<Candidate>) returns (r: Result<Campaign, Fault>)
    ensures r == CountedBatch(world, c, batch)
  {
    assert batch[..|batch|] == batch;
    var outcomes: map<OutcomeCategory, nat>, failures := c.outcomes, c.failures;
    ghost var none := Tally(outcomes, failures);
    for i := 0 to |batch|
      invariant RunSteps(batch[..i], Attribute(world), none) == Ok(Tally(outcomes, failures))
    {
      RunStepsNext(batch, i, Attribute(world), none, Tally(outcomes, failures));
      var evidence := batch[i].evidence;
      if evidence.failureId.Some? && world.failureOwner(evidence.failureId.value).None? {
        RunStepsEnd(batch, i + 1, Attribute(world), none);
        return Err(SourceFailureLineageMissing(evidence.failureId.value));
      }
      outcomes := outcomes[evidence.outcome := Get(outcomes, evidence.outcome) + 1];
      if evidence.failureId.Some? {
        failures := failures + {FailureFactOf(world, evidence.failureId.value)};
      }
    }
    var channels := c.channelsUnavailable;
    if Get(outcomes, SourceUnavailable) > 0 || Get(outcomes, SourceRateLimitedOrStale) > 0 || Get(outcomes, ResponseMalformedOrPartial) > 0 {
      channels := channels + {MARKET_CHANNEL};
    }
    assert channels == c.channelsUnavailable + MarketChannels(outcomes);
    return Ok(c.(outcomes := outcomes, failures := failures, channelsUnavailable := channels));
  }

  lemma {:induction false} TallyCounts(world: World, t: Tally, batch: seq<Candidate>)
    ensures var r := RunSteps(batch, Attribute(world), t);
            && (r.Ok? <==> OwnersKnown(world, batch))
            && (r.Err? ==> LineageMissing(world, r.error))
            && (r.Ok? ==> t.failures <= r.value.failures)
            && (r.Ok? ==> forall category :: Get(r.value.outcomes, category) == Get(t.outcomes, category) + CountOutcome(batch, category))
    decreases |batch|
  {
    if batch != [] {
      var front := batch[..|batch| - 1];
      TallyCounts(world, t, front);
      assert OwnersKnown(world, batch) <==> OwnersKnown(world, front) && OwnersKnown(world, [batch[|batch| - 1]]) by {
        assert batch == front + [batch[|batch| - 1]];
      }
    }
  }

  /** The failures on record after a batch: those before it, and the owned failure of every candidate. */
  lemma {:induction false} FailuresAttributed(world: World, t: Tally, batch: seq<Candidate>, fact: FailureFact)
    requires RunSteps(batch, Attribute(world), t).Ok?
    ensures fact in RunSteps(batch, Attribute(world), t).value.failures
            <==> fact in t.failures || exists i :: 0 <= i < |batch| && Owns(world, batch[i], fact)
    decreases |batch|
  {
    if batch != [] {
      var front := batch[..|batch| - 1];
      FailuresAttributed(world, t, front, fact);
      if Owns(world, batch[|batch| - 1], fact) {
        assert FailureFactOf(world, fact.id) == fact;
      }
      if i :| 0 <= i < |batch| && Owns(world, batch[i], fact) {
        assert i < |front| ==> Owns(world, front[i], fact);
      }
    }
  }

  /** The failure of a candidate, under the source and request kind that own it. */
  predicate Owns(world: World, x: Candidate, fact: FailureFact) {
    x.evidence.failureId == Some(fact.id) && world.failureOwner(fact.id) == Some((fact.source, fact.requestKind))
  }

  /** A batch is counted in full exactly when every failure in it has a governed owner. */
  lemma CountedBatchIs(world: World, c: Campaign, batch: seq<Candidate>)
    ensures var r := CountedBatch(world, c, batch);
            && (r.Ok? <==> OwnersKnown(world, batch))
            && (r.Err? ==> LineageMissing(world, r.error))
            && (r.Ok? ==> Counts(c, r.value, batch))
  {
    TallyCounts(world, Tally(c.outcomes, c.failures), batch);
  }

  // ---- One round: choose a batch, evaluate it, count it ----

  /** Table keys: a mint has one registry row, and it is never blank. */
  ghost predicate RegistryKeyed(world: World) {
    forall k: nat :: DistinctBy(world.registry(k), MintOf) && forall r :: r in world.registry(k) ==> r.mint != ""
  }

  function RoundSeed(cycleSeed: string, round: nat): string {
    cycleSeed + "|ROUND_" + IdentityKeys.Decimal(round)
  }

  /** The batch of a round: distinct rows of the registry of that round that were not excluded,
      as many as the batch size allows, eligible only on that round's own market evidence. */
  ghost predicate IsRoundBatch(world: World, round: nat, batchSize: nat, exclude: set<string>, batch: seq<Candidate>) {
    && DistinctBy(batch, CandidateMint)
    && (forall x :: x in batch ==> x.row in world.registry(round) && x.row.mint !in exclude)
    && |batch| == (if batchSize == 1 && TwoPartitions(world.registry(round), world.latestMints, exclude) then 2
                   else Min(batchSize, AvailableCount(world.registry(round), exclude)))
    && (forall x :: x in batch && x.Eligible() ==> MeetsFloor(x.row, x.evidence.usd, world.market(round)))
  }

  function RoundRows(cfg: Config, world: World, round: nat, batchSize: nat, exclude: set<string>): seq<Row> {
    BoundedRefreshRows(world.registry(round), world.latestMints, RoundSeed(cfg.cycleSeed, round), world.digest, batchSize, exclude)
  }

  function RoundBatch(cfg: Config, world: World, floor: FloorTable, round: nat, batchSize: nat, exclude: set<string>): seq<Candidate> {
    Evaluated(floor, RoundRows(cfg, world, round, batchSize, exclude), world.latestMints, cfg.now, world.market(round))
  }

  lemma RoundBatchIs(cfg: Config, world: World, floor: FloorTable, round: nat, batchSize: nat, exclude: set<string>)
    requires RegistryKeyed(world) && batchSize > 0
    ensures IsRoundBatch(world, round, batchSize, exclude, RoundBatch(cfg, world, floor, round, batchSize, exclude))
  {
    var rows, seed := RoundRows(cfg, world, round, batchSize, exclude), RoundSeed(cfg.cycleSeed, round);
    var batch := RoundBatch(cfg, world, floor, round, batchSize, exclude);
    BatchRows(world.registry(round), world.latestMints, seed, world.digest, batchSize, exclude);
    BatchSize(world.registry(round), world.latestMints, seed, world.digest, batchSize, exclude);
    forall i, j | 0 <= i < j < |batch| ensures CandidateMint(batch[i]) != CandidateMint(batch[j]) {
      assert MintOf(rows[i]) != MintOf(rows[j]);
    }
    forall x | x in batch ensures x.row in world.registry(round) && x.row.mint !in exclude {
      EvaluatedMembers(floor, rows, world.latestMints, cfg.now, world.market(round), x);
    }
    forall x | x in batch && x.Eligible() ensures MeetsFloor(x.row, x.evidence.usd, world.market(round)) {
      BatchEligibility(floor, rows, world.latestMints, cfg.now, world.market(round), x);
    }
  }

  /** The account when a round begins, charged for the market calls of its batch. */
  function RoundBegun(c: Campaign, batch: seq<Candidate>): Campaign {
    c.(rounds := c.rounds + 1, roundStart := c.operations, operations := c.operations + MarketCalls(batch))
  }

  /** Account and batch of a round before its batch is admitted, or the fault that aborts it. */
  function RoundCounted(world: World, c: Campaign, batch: seq<Candidate>): Result<(Campaign, seq<Candidate>), Fault> {
    var counted := CountedBatch(world, RoundBegun(c, batch), batch);
    if counted.Err? then Err(counted.error) else Ok((counted.value, batch))
  }

  /** A round is aborted exactly when its batch holds a failure that no governed source owns. */
  lemma RoundCountedIs(world: World, c: Campaign, batch: seq<Candidate>)
    ensures var r := RoundCounted(world, c, batch);
            && (r.Ok? <==> OwnersKnown(world, batch))
            && (r.Err? ==> LineageMissing(world, r.error))
            && (r.Ok? ==> r.value.1 == batch && Counted(c, r.value.0, batch))
  {
    CountedBatchIs(world, RoundBegun(c, batch), batch);
  }

  /** What the campaign sees of the front door: the batch of a round, and the floor table it leaves. */
  datatype FrontDoor = FrontDoor(
    batch: (FloorTable, nat, nat, set<string>) -> seq<Candidate>,
    after: (FloorTable, nat, nat, set<string>) -> FloorTable)

  function DoorOf(cfg: Config, world: World): FrontDoor {
    FrontDoor(
      (floor: FloorTable, round: nat, size: nat, exclude: set<string>) => RoundBatch(cfg, world, floor, round, size, exclude),
      (floor: FloorTable, round: nat, size: nat, exclude: set<string>) =>
        FloorAfter(floor, RoundRows(cfg, world, round, size, exclude), cfg.now, world.market(round)))
  }

  ghost predicate Lawful(world: World, door: FrontDoor) {
    forall floor: FloorTable, round: nat, size: nat, exclude: set<string> ::
      size > 0 ==> IsRoundBatch(world, round, size, exclude, door.batch(floor, round, size, exclude))
  }

  lemma DoorIsLawful(cfg: Config, world: World)
    requires RegistryKeyed(world)
    ensures Lawful(world, DoorOf(cfg, world))
  {
    forall floor: FloorTable, round: nat, size: nat, exclude: set<string> | size > 0
      ensures IsRoundBatch(world, round, size, exclude, DoorOf(cfg, world).batch(floor, round, size, exclude))
    {
      RoundBatchIs(cfg, world, floor, round, size, exclude);
    }
  }

  /** One round of the front door: what it reports, and the floor table it leaves. */
  function RoundRun(world: World, door: FrontDoor, floor: FloorTable, c: Campaign, size: nat, exclude: set<string>):
    (Result<(Campaign, seq<Candidate>), Fault>, FloorTable)
  {
    (RoundCounted(world, c, door.batch(floor, c.rounds + 1, size, exclude)), door.after(floor, c.rounds + 1, size, exclude))
  }

  /** Runs the front door for one round and absorbs its counts. */
  method FrontDoorRound(cfg: Config, world: World, floor: MarketFloor, c: Campaign, batchSize: nat, exclude: set<string>)
    returns (r: Result<(Campaign, seq<Candidate>), Fault>)
    modifies floor
    ensures (r, floor.state) == RoundRun(world, DoorOf(cfg, world), old(floor.state), c, batchSize, exclude)
  {
    var batch, calls := EvaluateRows(cfg, world, floor, c.rounds + 1, batchSize, exclude);
    r := CountRound(world, c, batch, calls);
  }

  method EvaluateRows(cfg: Config, world: World, floor: MarketFloor, round: nat, batchSize: nat, exclude: set<string>)
    returns (batch: seq<Candidate>, calls: nat)
    modifies floor
    ensures batch == DoorOf(cfg, world).batch(old(floor.state), round, batchSize, exclude) && calls == MarketCalls(batch)
    ensures floor.state == DoorOf(cfg, world).after(old(floor.state), round, batchSize, exclude)
  {
    var rows := RoundRows(cfg, world, round, batchSize, exclude);
    batch, calls := floor.EvaluateBatch(rows, world.latestMints, cfg.now, world.market(round));
  }

  method CountRound(world: World, c: Campaign, batch: seq<Candidate>, calls: nat) returns (r: Result<(Campaign, seq<Candidate>), Fault>)
    requires calls == MarketCalls(batch)
    ensures r == RoundCounted(world, c, batch)
  {
    var counted := CountOutcomes(world, c.(rounds := c.rounds + 1, roundStart := c.operations, operations := c.operations + calls), batch);
    if counted.Err? {
      return Err(counted.error);
    }
    return Ok((counted.value, batch));
  }
}
