/** One whole supply campaign: the round loop, its stop reasons and the final verdict. */
module SupplyCampaign {
  import opened Common
  import opened RefreshBatch
  import opened LiquidityFrontDoor
  import opened ShortageVerdict
  import opened EligibleSupply

  datatype SupplyResult = SupplyResult(
    ready: bool,
    stop: StopReason,
    campaign: Campaign,
    inventory: set<string>,
    shortage: Option<Shortage>)

  // ---- The account of a campaign against its inputs ----

  function StageFacts(world: World): set<FailureFact> {
    set f | f in world.governedFailures :: f.fact
  }

  function StageChannels(world: World): set<string> {
    set f | f in world.governedFailures :: f.channel
  }

  ghost predicate ChannelsFollow(world: World, c: Campaign) {
    c.channelsUnavailable == StageChannels(world) + if FaultSeen(c) then {"dexscreener_exact_pool_market"} else {}
  }

  /** The part of the account that is not about single tokens. */
  ghost predicate Totals(cfg: Config, world: World, c: Campaign) {
    && OutcomesCounted(c)
    && c.blocked == BlockedMints(cfg, world, world.registry(0))
    && c.operations == world.stageOperations + MarketCalls(c.candidates)
    && ChannelsFollow(world, c)
    && StageFacts(world) <= c.failures
    && c.duplicates == 0
    && c.roundStart <= c.operations
  }

  ghost predicate Account(cfg: Config, world: World, start: Reserve, c: Campaign, reserve: Reserve) {
    Ledger(c) && ReserveFollows(cfg, start, c, reserve) && Totals(cfg, world, c)
  }

  /** Every token counted towards capacity was validated by this campaign, in one of its rounds. */
  ghost predicate Validated(world: World, c: Campaign) {
    forall m :: m in c.eligible ==>
                  exists k: nat :: 1 <= k <= c.rounds && MeetsFloor(c.eligible[m].row, c.eligible[m].evidence.usd, world.market(k))
  }

  lemma {:induction false} MarketCallsConcat(a: seq<Candidate>, b: seq<Candidate>)
    ensures MarketCalls(a + b) == MarketCalls(a) + MarketCalls(b)
    decreases |b|
  {
    if b == [] {
      assert a + b == a;
    } else {
      assert (a + b)[..|a + b| - 1] == a + b[..|b| - 1];
      MarketCallsConcat(a, b[..|b| - 1]);
    }
  }

  lemma {:induction false} CountOutcomeConcat(a: seq<Candidate>, b: seq<Candidate>, category: OutcomeCategory)
    ensures CountOutcome(a + b, category) == CountOutcome(a, category) + CountOutcome(b, category)
    decreases |b|
  {
    if b == [] {
      assert a + b == a;
    } else {
      assert (a + b)[..|a + b| - 1] == a + b[..|b| - 1];
      CountOutcomeConcat(a, b[..|b| - 1], category);
    }
  }

  /** The account right after the reserve was aged and the tracking precheck has run. */
  function Opened(cfg: Config, world: World): Campaign {
    var blocked := BlockedMints(cfg, world, world.registry(0));
    Campaign(world.stageOperations, blocked, blocked, map[], [], map[], StageFacts(world), StageChannels(world), 0, world.stageOperations, 0)
  }

  lemma AccountStarts(cfg: Config, world: World, start: Reserve, c: Campaign)
    requires c == Opened(cfg, world)
    ensures Account(cfg, world, start, c, MarkedExcluded(MarkedStale(start), c.blocked * LiveMints(start)))
    ensures Validated(world, c)
  {
    var reserve := MarkedExcluded(MarkedStale(start), c.blocked * LiveMints(start));
    assert c.evaluated == c.blocked + CandidateMints(c.candidates);
    forall m ensures Lookup(reserve, m) == RowAfter(cfg, Lookup(start, m), c, m) {
    }
  }

  lemma RoundIsNew(world: World, c: Campaign, d: Campaign, round: nat, size: nat, exclude: set<string>, batch: seq<Candidate>)
    requires RegistryKeyed(world) && IsRoundBatch(world, round, size, exclude, batch) && c.evaluated <= exclude
    requires d.evaluated == c.evaluated
    ensures NewBatch(d, batch)
  {
  }

  lemma CountsAdmitted(c: Campaign, d: Campaign, e: Campaign, batch: seq<Candidate>)
    requires OutcomesCounted(c) && Counted(c, d, batch)
    requires e.outcomes == d.outcomes && e.candidates == c.candidates + batch
    ensures OutcomesCounted(e)
  {
    forall category ensures Get(e.outcomes, category) == CountOutcome(e.candidates, category) {
      CountOutcomeConcat(c.candidates, batch, category);
    }
  }

  lemma ChannelsAdmitted(world: World, c: Campaign, d: Campaign, batch: seq<Candidate>)
    requires ChannelsFollow(world, c) && Counted(c, d, batch)
    ensures ChannelsFollow(world, d)
  {
    if FaultSeen(c) {
      var category :| IsSourceFault(category) && Get(c.outcomes, category) > 0;
      assert Get(d.outcomes, category) > 0;
    }
  }

  /** One round keeps the account: nothing is evaluated twice, every count and every durable row
      stays explained. */
  lemma AccountRound(
    cfg: Config, world: World, start: Reserve, c: Campaign, reserve: Reserve, d: Campaign, size: nat, exclude: set<string>,
    batch: seq<Candidate>)
    requires RegistryKeyed(world) && Account(cfg, world, start, c, reserve)
    requires IsRoundBatch(world, c.rounds + 1, size, exclude, batch) && c.evaluated <= exclude && Counted(c, d, batch)
    ensures NewBatch(d, batch)
    ensures Account(cfg, world, start, AdmitAll(d, batch), ReserveAdmitAll(cfg, LiveMints(start), reserve, d, batch))
  {
    RoundIsNew(world, c, d, c.rounds + 1, size, exclude, batch);
    SameTokens(cfg, start, c, d, reserve);
    AdmitAllKeeps(cfg, start, d, batch, reserve);
    CountsFollow(cfg, world, c, d, batch);
  }

  /** Counting changes no token and no durable row. */
  lemma SameTokens(cfg: Config, start: Reserve, c: Campaign, d: Campaign, reserve: Reserve)
    requires Ledger(c) && ReserveFollows(cfg, start, c, reserve)
    requires d.blocked == c.blocked && d.evaluated == c.evaluated && d.candidates == c.candidates && d.eligible == c.eligible
    ensures Ledger(d) && ReserveFollows(cfg, start, d, reserve)
  {
    forall m ensures Lookup(reserve, m) == RowAfter(cfg, Lookup(start, m), d, m) {
      assert Lookup(reserve, m) == RowAfter(cfg, Lookup(start, m), c, m);
    }
  }

  lemma CountsFollow(cfg: Config, world: World, c: Campaign, d: Campaign, batch: seq<Candidate>)
    requires Totals(cfg, world, c) && Counted(c, d, batch) && NewBatch(d, batch)
    ensures Totals(cfg, world, AdmitAll(d, batch))
  {
    AdmitAllRecords(d, batch);
    MarketCallsConcat(c.candidates, batch);
    CountsAdmitted(c, d, AdmitAll(d, batch), batch);
    ChannelsAdmitted(world, c, d, batch);
  }

  lemma {:induction false} AdmittedEligible(c: Campaign, batch: seq<Candidate>, m: string)
    requires m in AdmitAll(c, batch).eligible
    ensures (m in c.eligible && AdmitAll(c, batch).eligible[m] == c.eligible[m])
            || (AdmitAll(c, batch).eligible[m] in batch && AdmitAll(c, batch).eligible[m].Eligible())
    decreases |batch|
  {
    if batch != [] {
      var front, last := batch[..|batch| - 1], batch[|batch| - 1];
      assert batch == front + [last];
      if m in AdmitAll(c, front).eligible {
        AdmittedEligible(c, front, m);
      }
    }
  }

  lemma ValidatedRound(world: World, c: Campaign, d: Campaign, size: nat, exclude: set<string>, batch: seq<Candidate>)
    requires Validated(world, c) && IsRoundBatch(world, c.rounds + 1, size, exclude, batch)
    requires d.eligible == c.eligible && d.rounds == c.rounds + 1
    requires AdmitAll(d, batch).rounds == d.rounds
    ensures Validated(world, AdmitAll(d, batch))
  {
    var e := AdmitAll(d, batch);
    forall m | m in e.eligible
      ensures exists k: nat :: 1 <= k <= e.rounds && MeetsFloor(e.eligible[m].row, e.eligible[m].evidence.usd, world.market(k))
    {
      AdmittedEligible(d, batch, m);
      if m in c.eligible && e.eligible[m] == c.eligible[m] {
        var k: nat :| 1 <= k <= c.rounds && MeetsFloor(c.eligible[m].row, c.eligible[m].evidence.usd, world.market(k));
      } else {
        assert MeetsFloor(e.eligible[m].row, e.eligible[m].evidence.usd, world.market(c.rounds + 1));
      }
    }
  }

  // ---- Coverage over a fixed inventory ----

  ghost predicate FixedRegistry(world: World) {
    forall k: nat :: world.registry(k) == world.registry(0)
  }

  lemma {:induction false} AvailableIsUnexplored(rows: seq<Row>, exclude: set<string>)
    requires DistinctBy(rows, MintOf)
    ensures AvailableCount(rows, exclude) == |Mints(rows) - exclude|
  {
    var kept := Filter(rows, OpenRow(exclude));
    FilterDistinctBy(rows, OpenRow(exclude), MintOf);
    RowMintCount(kept);
    assert Mints(kept) == Mints(rows) - exclude;
  }

  lemma {:induction false} RowMintCount(rows: seq<Row>)
    requires DistinctBy(rows, MintOf)
    ensures |Mints(rows)| == |rows|
  {
    if rows != [] {
      var front, last := rows[..|rows| - 1], rows[|rows| - 1];
      RowMintCount(front);
      assert rows == front + [last];
      assert Mints(rows) == Mints(front) + {last.mint};
      assert last.mint !in Mints(front) by {
        assert forall i :: 0 <= i < |front| ==> MintOf(rows[i]) != MintOf(rows[|rows| - 1]);
      }
    } else {
      assert Mints(rows) == {};
    }
  }

  lemma {:induction false} CandidateMintCount(candidates: seq<Candidate>)
    requires DistinctBy(candidates, CandidateMint)
    ensures |CandidateMints(candidates)| == |candidates|
  {
    if candidates != [] {
      var front, last := candidates[..|candidates| - 1], candidates[|candidates| - 1];
      CandidateMintCount(front);
      assert candidates == front + [last];
      assert CandidateMints(candidates) == CandidateMints(front) + {last.row.mint};
      assert last.row.mint !in CandidateMints(front) by {
        assert forall i :: 0 <= i < |front| ==> CandidateMint(candidates[i]) != CandidateMint(candidates[|candidates| - 1]);
      }
    } else {
      assert CandidateMints(candidates) == {};
    }
  }

  /** k full batches of the given size. */
  function Full(k: nat, size: int): int {
    if k == 0 then 0 else Full(k - 1, size) + size
  }

  lemma {:induction false} FullIsProduct(k: nat, size: int)
    ensures Full(k, size) == k * size
  {
    if k > 0 {
      FullIsProduct(k - 1, size);
    }
  }

  /** After `rounds` rounds at least one token and `rounds - 1` full batches have been evaluated. */
  ghost predicate Advancing(inventory: set<string>, size: int, c: Campaign) {
    && CandidateMints(c.candidates) <= inventory
    && (c.rounds > 0 ==> |c.candidates| >= 1 + Full(c.rounds - 1, size))
  }

  lemma CandidateMintsConcat(a: seq<Candidate>, b: seq<Candidate>)
    ensures CandidateMints(a + b) == CandidateMints(a) + CandidateMints(b)
  {
    assert forall x :: x in a + b <==> x in a || x in b;
  }

  lemma BatchInInventory(world: World, round: nat, size: nat, exclude: set<string>, batch: seq<Candidate>)
    requires FixedRegistry(world) && IsRoundBatch(world, round, size, exclude, batch)
    ensures CandidateMints(batch) <= Mints(world.registry(0)) - exclude
  {
    assert world.registry(round) == world.registry(0);
  }

  /** A batch that is not full has taken every token it could draw from. */
  lemma ShortBatchCompletes(world: World, round: nat, size: nat, exclude: set<string>, batch: seq<Candidate>)
    requires RegistryKeyed(world) && FixedRegistry(world) && size > 0
    requires IsRoundBatch(world, round, size, exclude, batch)
    ensures |batch| < size ==> CandidateMints(batch) == Mints(world.registry(0)) - exclude
    ensures Mints(world.registry(0)) - exclude != {} ==> batch != []
  {
    assert world.registry(round) == world.registry(0);
    AvailableIsUnexplored(world.registry(0), exclude);
    BatchInInventory(world, round, size, exclude, batch);
    if |batch| < size {
      CandidateMintCount(batch);
      SubsetOfSameSize(CandidateMints(batch), Mints(world.registry(0)) - exclude);
    }
  }

  /** What a round over a fixed inventory takes: unexplored tokens only, at least one, and all of
      them unless the batch is full. */
  ghost predicate TakesFrom(unexplored: set<string>, size: nat, batch: seq<Candidate>) {
    && CandidateMints(batch) <= unexplored && batch != []
    && (|batch| < size ==> CandidateMints(batch) == unexplored)
  }

  /** A round over a fixed inventory either completes the inventory or advances by a full batch. */
  lemma RoundAdvances(inventory: set<string>, c: Campaign, size: nat, exclude: set<string>, batch: seq<Candidate>, e: Campaign)
    requires Advancing(inventory, size, c) && TakesFrom(inventory - exclude, size, batch)
    requires c.rounds > 0 ==> exclude == c.evaluated
    requires e.candidates == c.candidates + batch && e.rounds == c.rounds + 1 && e.evaluated == c.evaluated + CandidateMints(batch)
    ensures inventory <= e.evaluated || Advancing(inventory, size, e)
  {
    CandidateMintsConcat(c.candidates, batch);
  }

  lemma SubsetOfSameSize(a: set<string>, b: set<string>)
    requires a <= b && |a| == |b|
    ensures a == b
  {
    assert |b - a| == |b| - |a|;
  }

  lemma QuotientBound(n: nat, size: nat, k: nat)
    requires size > 0 && k * size <= n
    ensures k <= n / size
  {
    var q, r := n / size, n % size;
    assert n == q * size + r && r < size;
    if k >= q + 1 {
      MulMonotone(q + 1, k, size);
    }
  }

  lemma MulMonotone(a: nat, b: nat, size: nat)
    requires a <= b
    ensures a * size <= b * size
  {
  }

  lemma EvaluatedInInventory(world: World, c: Campaign)
    requires DistinctBy(c.candidates, CandidateMint) && CandidateMints(c.candidates) <= Mints(world.registry(0))
    ensures |c.candidates| <= |Mints(world.registry(0))|
  {
    CandidateMintCount(c.candidates);
    SubsetIsSmaller(CandidateMints(c.candidates), Mints(world.registry(0)));
  }

  /** The round cap leaves room: an advancing walk is below the cap by two rounds. */
  lemma CapLeavesRoom(world: World, size: nat, c: Campaign)
    requires size > 0 && Ledger(c) && Advancing(Mints(world.registry(0)), size, c)
    ensures c.rounds <= |Mints(world.registry(0))| / size + 1
  {
    EvaluatedInInventory(world, c);
    if c.rounds > 0 {
      FullIsProduct(c.rounds - 1, size);
      QuotientBound(|Mints(world.registry(0))|, size, c.rounds - 1);
    }
  }

  // ---- The operation budget ----

  function Remaining(cfg: Config, c: Campaign): nat {
    Max(0, cfg.operationBudget - c.operations)
  }

  /** The last round of a campaign began with a single operation left, and its batch of one met both
      a latest and a persisted token and called the market for both. */
  ghost predicate Overshot(cfg: Config, world: World, c: Campaign) {
    var n := |c.candidates|;
    && n >= 2 && MarketCalls(c.candidates[n - 2..]) == 2
    && world.stageOperations + MarketCalls(c.candidates[..n - 2]) == cfg.operationBudget - 1
    && TwoPartitions(world.registry(c.rounds), world.latestMints, c.blocked + CandidateMints(c.candidates[..n - 2]))
  }

  ghost predicate BudgetKept(cfg: Config, world: World, c: Campaign) {
    c.operations <= Max(world.stageOperations, cfg.operationBudget) || Overshot(cfg, world, c)
  }

  lemma FewerExcluded(rows: seq<Row>, latestMints: set<string>, few: set<string>, many: set<string>)
    requires few <= many && TwoPartitions(rows, latestMints, many)
    ensures TwoPartitions(rows, latestMints, few)
  {
    var i :| 0 <= i < |rows| && rows[i].mint !in many && rows[i].mint in latestMints;
    var j :| 0 <= j < |rows| && rows[j].mint !in many && rows[j].mint !in latestMints;
    assert rows[i].mint !in few && rows[j].mint !in few;
  }

  lemma BudgetRound(cfg: Config, world: World, c: Campaign, exclude: set<string>, batch: seq<Candidate>, e: Campaign)
    requires Ledger(c) && c.operations == world.stageOperations + MarketCalls(c.candidates) && Remaining(cfg, c) > 0
    requires c.evaluated <= exclude
    requires || |batch| <= Remaining(cfg, c)
             || (Remaining(cfg, c) == 1 && |batch| == 2 && TwoPartitions(world.registry(c.rounds + 1), world.latestMints, exclude))
    requires e.candidates == c.candidates + batch && e.rounds == c.rounds + 1 && e.blocked == c.blocked
    requires e.operations == c.operations + MarketCalls(batch)
    ensures BudgetKept(cfg, world, e)
  {
    if MarketCalls(batch) > Remaining(cfg, c) {
      OvershootingRound(cfg, world, c, exclude, batch, e);
    }
  }

  lemma OvershootingRound(cfg: Config, world: World, c: Campaign, exclude: set<string>, batch: seq<Candidate>, e: Campaign)
    requires Ledger(c) && c.operations == world.stageOperations + MarketCalls(c.candidates) && c.evaluated <= exclude
    requires Remaining(cfg, c) == 1 && |batch| == 2 && MarketCalls(batch) == 2
    requires TwoPartitions(world.registry(c.rounds + 1), world.latestMints, exclude)
    requires e.candidates == c.candidates + batch && e.rounds == c.rounds + 1 && e.blocked == c.blocked && e.operations == c.operations + 2
    ensures Overshot(cfg, world, e)
  {
    assert e.candidates[..|e.candidates| - 2] == c.candidates && e.candidates[|e.candidates| - 2..] == batch;
    FewerExcluded(world.registry(c.rounds + 1), world.latestMints, c.evaluated, exclude);
  }

  lemma BatchWithinRemaining(world: World, round: nat, wanted: nat, remaining: nat, exclude: set<string>, batch: seq<Candidate>)
    requires wanted >= 1 && remaining >= 1 && IsRoundBatch(world, round, Min(wanted, remaining), exclude, batch)
    ensures |batch| <= remaining || (remaining == 1 && |batch| == 2 && TwoPartitions(world.registry(round), world.latestMints, exclude))
  {
  }

  // ---- The phases of a campaign ----

  /** Ages the reserve, excludes what tracking already holds, and opens the account. */
  method StartCampaign(store: SupplyStore, cfg: Config, world: World) returns (c: Campaign, prior: set<string>)
    modifies store`reserve
    ensures c == Opened(cfg, world) && prior == LiveMints(old(store.reserve))
    ensures Account(cfg, world, old(store.reserve), c, store.reserve) && Validated(world, c)
  {
    var inventory := world.registry(0);
    prior := store.MarkPriorReserveStale();
    var blocked := store.TrackingPrecheck(cfg, world, inventory, prior);
    c := Campaign(world.stageOperations, blocked, blocked, map[], [], map[], StageFacts(world), StageChannels(world), 0, world.stageOperations, 0);
    AccountStarts(cfg, world, old(store.reserve), c);
  }

  function MaxRounds(cfg: Config, world: World): int {
    Max(1, |Mints(world.registry(0))| / Max(1, cfg.evaluationBatchSize) + 3)
  }

  /** Before the first round, the reserve members that still have to be revalidated. */
  function Focus(c: Campaign, revalidate: set<string>): set<string> {
    if c.rounds == 0 && revalidate != {} then revalidate - c.evaluated else {}
  }

  function Excluding(inventory: set<string>, c: Campaign, focus: set<string>): set<string> {
    if focus != {} then c.evaluated + (inventory - focus - c.evaluated) else c.evaluated
  }

  predicate IsFocus(inventory: set<string>, c: Campaign, focus: set<string>) {
    && (forall m :: m in focus ==> m in inventory && m !in c.evaluated)
    && (focus != {} || exists m :: m in inventory && m !in c.evaluated)
    && (c.rounds > 0 ==> focus == {})
  }

  ghost predicate Covered(world: World, c: Campaign) {
    Mints(world.registry(0)) <= c.evaluated
  }

  /** Operations only grow, so a full last batch means that every batch was full size. */
  ghost predicate NeverShrunk(cfg: Config, c: Campaign) {
    c.roundStart + cfg.evaluationBatchSize <= cfg.operationBudget
  }

  /** Over a fixed inventory, as long as the budget has not shrunk a batch, the walk is done or
      advancing by full batches. */
  ghost predicate Walking(cfg: Config, world: World, c: Campaign) {
    FixedRegistry(world) ==>
      && CandidateMints(c.candidates) <= Mints(world.registry(0))
      && (NeverShrunk(cfg, c) ==>
            Covered(world, c) || Advancing(Mints(world.registry(0)), cfg.evaluationBatchSize, c))
  }

  /** The prior reserve members that are still in the registry and not held by tracking. */
  function ReserveFocus(world: World, start: Reserve, c: Campaign): set<string> {
    LiveMints(start) * Mints(world.registry(0)) - c.blocked
  }

  /** The first tokens evaluated are those of the focus: as many as the first batch allows, or all of them. */
  ghost predicate FocusFirst(focus: set<string>, size: int, c: Campaign) {
    c.rounds > 0 ==>
      && Min(size, |focus|) <= |c.candidates|
      && forall k :: 0 <= k < Min(size, |focus|) ==> c.candidates[k].row.mint in focus
  }

  function FirstBatchSize(cfg: Config, world: World): int {
    Min(cfg.evaluationBatchSize, cfg.operationBudget - world.stageOperations)
  }

  /** Over a fixed inventory, prior reserve members are revalidated before anything else. */
  ghost predicate ReserveFirst(cfg: Config, world: World, start: Reserve, c: Campaign) {
    && (c.rounds == 0 ==> c.candidates == [])
    && (FixedRegistry(world) ==> FocusFirst(ReserveFocus(world, start, c), FirstBatchSize(cfg, world), c))
  }

  /** The first round is given the prior reserve as its focus. */
  ghost predicate FocusIsReserve(world: World, start: Reserve, c: Campaign, focus: set<string>) {
    c.rounds == 0 ==> focus == ReserveFocus(world, start, c)
  }

  ghost predicate CampaignHolds(cfg: Config, world: World, start: Reserve, c: Campaign, reserve: Reserve) {
    && Account(cfg, world, start, c, reserve)
    && Validated(world, c)
    && BudgetKept(cfg, world, c)
    && Walking(cfg, world, c)
  }

  /** Why the loop of a campaign stopped. */
  ghost predicate StopExplained(cfg: Config, world: World, c: Campaign, stop: StopReason) {
    && (stop == EligibleCapacityMet <==> |c.eligible| >= cfg.requiredCapacity)
    && stop != NotStarted
    && (stop == OperationBudgetExhausted ==> Remaining(cfg, c) == 0)
    && (stop == CampaignDurationExhausted ==> cfg.deadline.Some? && cfg.deadline.value <= world.clock(c.rounds))
    && (stop in {AllReachableCandidatesEvaluated, NoAdditionalUniqueCandidates} ==>
          FixedRegistry(world) && NeverShrunk(cfg, c) ==> Covered(world, c))
  }

  lemma RoundTakes(world: World, c: Campaign, size: nat, focus: set<string>, batch: seq<Candidate>)
    requires RegistryKeyed(world) && FixedRegistry(world) && IsFocus(Mints(world.registry(0)), c, focus) && size > 0
    requires IsRoundBatch(world, c.rounds + 1, size, Excluding(Mints(world.registry(0)), c, focus), batch)
    ensures TakesFrom(Mints(world.registry(0)) - Excluding(Mints(world.registry(0)), c, focus), size, batch)
  {
    var exclude := Excluding(Mints(world.registry(0)), c, focus);
    ExcludingLeaves(Mints(world.registry(0)), c, focus);
    BatchInInventory(world, c.rounds + 1, size, exclude, batch);
    ShortBatchCompletes(world, c.rounds + 1, size, exclude, batch);
  }

  lemma WalkingRound(cfg: Config, world: World, c: Campaign, size: nat, focus: set<string>, batch: seq<Candidate>, e: Campaign)
    requires Walking(cfg, world, c) && IsFocus(Mints(world.registry(0)), c, focus)
    requires cfg.evaluationBatchSize >= 1 && size == Min(cfg.evaluationBatchSize, Remaining(cfg, c))
    requires FixedRegistry(world) ==> TakesFrom(Mints(world.registry(0)) - Excluding(Mints(world.registry(0)), c, focus), size, batch)
    requires e.candidates == c.candidates + batch && e.rounds == c.rounds + 1 && e.evaluated == c.evaluated + CandidateMints(batch)
    requires c.roundStart <= c.operations == e.roundStart
    ensures Walking(cfg, world, e)
  {
    var inventory := Mints(world.registry(0));
    CandidateMintsConcat(c.candidates, batch);
    ExcludingLeaves(inventory, c, focus);
    if FixedRegistry(world) && NeverShrunk(cfg, e) {
      assert !(inventory <= c.evaluated);
      RoundAdvances(inventory, c, size, Excluding(inventory, c, focus), batch, e);
    }
  }

  lemma ExcludingLeaves(inventory: set<string>, c: Campaign, focus: set<string>)
    requires IsFocus(inventory, c, focus)
    ensures inventory - Excluding(inventory, c, focus) != {} && c.evaluated <= Excluding(inventory, c, focus)
    ensures c.rounds > 0 ==> Excluding(inventory, c, focus) == c.evaluated
  {
    var m :| if focus != {} then m in focus else m in inventory && m !in c.evaluated;
    assert m in inventory - Excluding(inventory, c, focus);
  }

  lemma RoundRecords(world: World, c: Campaign, d: Campaign, size: nat, exclude: set<string>, batch: seq<Candidate>)
    requires RegistryKeyed(world) && IsRoundBatch(world, c.rounds + 1, size, exclude, batch) && c.evaluated <= exclude
    requires Counted(c, d, batch)
    ensures var e := AdmitAll(d, batch);
            && e.candidates == c.candidates + batch && e.rounds == c.rounds + 1 && e.evaluated == c.evaluated + CandidateMints(batch)
            && e.operations == c.operations + MarketCalls(batch) && e.blocked == c.blocked && e.roundStart == c.operations
  {
    RoundIsNew(world, c, d, c.rounds + 1, size, exclude, batch);
    AdmitAllRecords(d, batch);
  }

  /** A round keeps everything the campaign promises. */
  lemma RoundHolds(
    cfg: Config, world: World, start: Reserve, c: Campaign, reserve: Reserve, d: Campaign, size: nat, focus: set<string>,
    batch: seq<Candidate>)
    requires RegistryKeyed(world) && CampaignHolds(cfg, world, start, c, reserve) && cfg.evaluationBatchSize >= 1
    requires size == Min(cfg.evaluationBatchSize, Remaining(cfg, c)) && size > 0
    requires IsFocus(Mints(world.registry(0)), c, focus)
    requires IsRoundBatch(world, c.rounds + 1, size, Excluding(Mints(world.registry(0)), c, focus), batch) && Counted(c, d, batch)
    ensures CampaignHolds(cfg, world, start, AdmitAll(d, batch), ReserveAdmitAll(cfg, LiveMints(start), reserve, d, batch))
    ensures AdmitAll(d, batch).rounds == c.rounds + 1
    ensures FixedRegistry(world) ==> batch != []
  {
    var exclude, e := Excluding(Mints(world.registry(0)), c, focus), AdmitAll(d, batch);
    RoundRecords(world, c, d, size, exclude, batch);
    if FixedRegistry(world) {
      RoundTakes(world, c, size, focus, batch);
    }
    WalkingRound(cfg, world, c, size, focus, batch, e);
    BatchWithinRemaining(world, c.rounds + 1, cfg.evaluationBatchSize, Remaining(cfg, c), exclude, batch);
    BudgetRound(cfg, world, c, exclude, batch, e);
    ValidatedRound(world, c, d, size, exclude, batch);
    AccountRound(cfg, world, start, c, reserve, d, size, exclude, batch);
  }

  lemma CapMeansCovered(cfg: Config, world: World, c: Campaign)
    requires Ledger(c) && Walking(cfg, world, c) && cfg.evaluationBatchSize >= 1 && c.rounds >= MaxRounds(cfg, world)
    ensures FixedRegistry(world) && NeverShrunk(cfg, c) ==> Covered(world, c)
  {
    if Advancing(Mints(world.registry(0)), cfg.evaluationBatchSize, c) {
      CapLeavesRoom(world, cfg.evaluationBatchSize, c);
    }
  }

  /** A round that is focused takes only tokens of its focus, as many as fit. */
  lemma FocusTaken(inventory: set<string>, c: Campaign, size: nat, focus: set<string>, batch: seq<Candidate>)
    requires IsFocus(inventory, c, focus) && focus != {} && DistinctBy(batch, CandidateMint)
    requires TakesFrom(inventory - Excluding(inventory, c, focus), size, batch)
    ensures Min(size, |focus|) <= |batch| && forall k :: 0 <= k < |batch| ==> batch[k].row.mint in focus
  {
    assert inventory - Excluding(inventory, c, focus) == focus;
    CandidateMintCount(batch);
    forall k | 0 <= k < |batch| ensures batch[k].row.mint in focus {
      assert batch[k].row.mint in CandidateMints(batch);
    }
  }

  lemma FocusFirstRound(focus: set<string>, size: nat, c: Campaign, batch: seq<Candidate>, e: Campaign)
    requires FocusFirst(focus, size, c) && e.candidates == c.candidates + batch && (c.rounds == 0 ==> c.candidates == [])
    requires c.rounds == 0 && focus != {} ==>
               Min(size, |focus|) <= |batch| && forall k :: 0 <= k < |batch| ==> batch[k].row.mint in focus
    ensures FocusFirst(focus, size, e)
  {
  }

  /** The order of evaluation after one more round. */
  lemma RoundReserve(cfg: Config, world: World, start: Reserve, c: Campaign, size: nat, focus: set<string>, batch: seq<Candidate>, e: Campaign)
    requires ReserveFirst(cfg, world, start, c) && FocusIsReserve(world, start, c, focus)
    requires IsFocus(Mints(world.registry(0)), c, focus) && size > 0 && DistinctBy(batch, CandidateMint)
    requires c.rounds == 0 ==> size == FirstBatchSize(cfg, world)
    requires FixedRegistry(world) ==> TakesFrom(Mints(world.registry(0)) - Excluding(Mints(world.registry(0)), c, focus), size, batch)
    requires e.candidates == c.candidates + batch && e.rounds == c.rounds + 1 && e.blocked == c.blocked
    ensures ReserveFirst(cfg, world, start, e)
  {
    if FixedRegistry(world) {
      if c.rounds == 0 {
        if focus != {} {
          FocusTaken(Mints(world.registry(0)), c, size, focus, batch);
        }
        FocusFirstRound(focus, size, c, batch, e);
      } else {
        FocusFirstLater(ReserveFocus(world, start, c), FirstBatchSize(cfg, world), c, batch, e);
      }
    }
  }

  lemma FocusFirstLater(focus: set<string>, size: int, c: Campaign, batch: seq<Candidate>, e: Campaign)
    requires FocusFirst(focus, size, c) && c.rounds > 0 && e.candidates == c.candidates + batch
    ensures FocusFirst(focus, size, e)
  {
  }

  lemma FirstSize(cfg: Config, world: World, c: Campaign)
    requires c.candidates == [] && c.operations == world.stageOperations + MarketCalls(c.candidates) && Remaining(cfg, c) > 0
    ensures Min(cfg.evaluationBatchSize, Remaining(cfg, c)) == FirstBatchSize(cfg, world)
  {
  }

  lemma RoundOrders(cfg: Config, world: World, start: Reserve, c: Campaign, d: Campaign, size: nat, focus: set<string>, batch: seq<Candidate>)
    requires RegistryKeyed(world) && ReserveFirst(cfg, world, start, c) && FocusIsReserve(world, start, c, focus)
    requires IsFocus(Mints(world.registry(0)), c, focus) && size > 0 && (c.rounds == 0 ==> size == FirstBatchSize(cfg, world))
    requires IsRoundBatch(world, c.rounds + 1, size, Excluding(Mints(world.registry(0)), c, focus), batch) && Counted(c, d, batch)
    ensures ReserveFirst(cfg, world, start, AdmitAll(d, batch))
  {
    ExcludingLeaves(Mints(world.registry(0)), c, focus);
    RoundRecords(world, c, d, size, Excluding(Mints(world.registry(0)), c, focus), batch);
    if FixedRegistry(world) {
      RoundTakes(world, c, size, focus, batch);
    }
    RoundReserve(cfg, world, start, c, size, focus, batch, AdmitAll(d, batch));
  }

  function BatchSizeOf(cfg: Config, c: Campaign): nat
    requires cfg.evaluationBatchSize >= 1
  {
    Min(cfg.evaluationBatchSize, Remaining(cfg, c))
  }

  /** The next round, before its batch is admitted: what it reports, and the floor table it leaves. */
  function NextRound(cfg: Config, world: World, door: FrontDoor, floor: FloorTable, c: Campaign, focus: set<string>):
    (Result<(Campaign, seq<Candidate>), Fault>, FloorTable)
    requires cfg.evaluationBatchSize >= 1
  {
    RoundRun(world, door, floor, c, BatchSizeOf(cfg, c), Excluding(Mints(world.registry(0)), c, focus))
  }

  function Admitted(round: Result<(Campaign, seq<Candidate>), Fault>): Result<(Campaign, nat), Fault> {
    if round.Err? then Err(round.error) else Ok((AdmitAll(round.value.0, round.value.1), |round.value.1|))
  }

  ghost predicate RoundKept(cfg: Config, world: World, start: Reserve, c: Campaign, reserve: Reserve, d: Campaign, batch: seq<Candidate>) {
    && CampaignHolds(cfg, world, start, AdmitAll(d, batch), ReserveAdmitAll(cfg, LiveMints(start), reserve, d, batch))
    && ReserveFirst(cfg, world, start, AdmitAll(d, batch))
    && AdmitAll(d, batch).rounds == c.rounds + 1
    && (batch == [] ==> AdmitAll(d, batch).eligible == c.eligible && !FixedRegistry(world))
  }

  lemma BatchRoundHolds(
    cfg: Config, world: World, start: Reserve, c: Campaign, reserve: Reserve, size: nat, focus: set<string>, batch: seq<Candidate>)
    requires RegistryKeyed(world) && cfg.evaluationBatchSize >= 1 && size > 0 && size == Min(cfg.evaluationBatchSize, Remaining(cfg, c))
    requires CampaignHolds(cfg, world, start, c, reserve) && IsFocus(Mints(world.registry(0)), c, focus)
    requires ReserveFirst(cfg, world, start, c) && FocusIsReserve(world, start, c, focus)
    requires IsRoundBatch(world, c.rounds + 1, size, Excluding(Mints(world.registry(0)), c, focus), batch)
    ensures var r := RoundCounted(world, c, batch);
            && (r.Err? ==> LineageMissing(world, r.error))
            && (r.Ok? ==> RoundKept(cfg, world, start, c, reserve, r.value.0, r.value.1))
  {
    var r := RoundCounted(world, c, batch);
    RoundCountedIs(world, c, batch);
    if r.Ok? {
      if c.rounds == 0 {
        FirstSize(cfg, world, c);
      }
      RoundHolds(cfg, world, start, c, reserve, r.value.0, size, focus, batch);
      RoundOrders(cfg, world, start, c, r.value.0, size, focus, batch);
    }
  }

  lemma NextRoundBatch(
    cfg: Config, world: World, door: FrontDoor, floor: FloorTable, c: Campaign, focus: set<string>, r: Result<(Campaign, seq<Candidate>), Fault>)
    returns (batch: seq<Candidate>)
    requires Lawful(world, door) && cfg.evaluationBatchSize >= 1 && Remaining(cfg, c) > 0
    requires r == NextRound(cfg, world, door, floor, c, focus).0
    ensures IsRoundBatch(world, c.rounds + 1, BatchSizeOf(cfg, c), Excluding(Mints(world.registry(0)), c, focus), batch)
    ensures r == RoundCounted(world, c, batch)
  {
    batch := door.batch(floor, c.rounds + 1, BatchSizeOf(cfg, c), Excluding(Mints(world.registry(0)), c, focus));
  }

  /** What a round that was not aborted keeps, once its batch is admitted. */
  lemma NextRoundHolds(
    cfg: Config, world: World, door: FrontDoor, start: Reserve, c: Campaign, reserve: Reserve, floor: FloorTable, focus: set<string>,
    r: Result<(Campaign, seq<Candidate>), Fault>)
    requires RegistryKeyed(world) && Lawful(world, door) && cfg.evaluationBatchSize >= 1 && Remaining(cfg, c) > 0
    requires CampaignHolds(cfg, world, start, c, reserve) && IsFocus(Mints(world.registry(0)), c, focus)
    requires ReserveFirst(cfg, world, start, c) && FocusIsReserve(world, start, c, focus)
    requires r == NextRound(cfg, world, door, floor, c, focus).0
    ensures r.Err? ==> LineageMissing(world, r.error)
    ensures r.Ok? ==> RoundKept(cfg, world, start, c, reserve, r.value.0, r.value.1)
  {
    var batch := NextRoundBatch(cfg, world, door, floor, c, focus, r);
    BatchRoundHolds(cfg, world, start, c, reserve, BatchSizeOf(cfg, c), focus, batch);
  }

  /** The first half of a round: choose the batch, evaluate it, count it. */
  method EvaluateRound(floor: MarketFloor, cfg: Config, world: World, c: Campaign, focus: set<string>)
    returns (r: Result<(Campaign, seq<Candidate>), Fault>)
    requires cfg.evaluationBatchSize >= 1
    modifies floor
    ensures (r, floor.state) == NextRound(cfg, world, DoorOf(cfg, world), old(floor.state), c, focus)
  {
    // The batch is capped by the operations that are left.
    var batchSize := Min(cfg.evaluationBatchSize, Remaining(cfg, c));
    var exclude := Excluding(Mints(world.registry(0)), c, focus);
    r := FrontDoorRound(cfg, world, floor, c, batchSize, exclude);
  }

  /** The body of one round, after the stop checks: choose, evaluate, count, admit. */
  method RunRound(store: SupplyStore, cfg: Config, world: World, ghost start: Reserve, c: Campaign, prior: set<string>, focus: set<string>)
    returns (r: Result<(Campaign, nat), Fault>)
    requires RegistryKeyed(world) && cfg.evaluationBatchSize >= 1 && Remaining(cfg, c) > 0
    requires CampaignHolds(cfg, world, start, c, store.reserve) && prior == LiveMints(start)
    requires IsFocus(Mints(world.registry(0)), c, focus)
    requires ReserveFirst(cfg, world, start, c) && FocusIsReserve(world, start, c, focus)
    modifies store`reserve, store.floor
    ensures var next := NextRound(cfg, world, DoorOf(cfg, world), old(store.floor.state), c, focus);
            r == Admitted(next.0) && store.floor.state == next.1
    ensures r.Err? ==> LineageMissing(world, r.error)
    ensures r.Ok? ==> var (e, size) := r.value;
                      && CampaignHolds(cfg, world, start, e, store.reserve) && ReserveFirst(cfg, world, start, e) && e.rounds == c.rounds + 1
                      && (size == 0 ==> e.eligible == c.eligible && !FixedRegistry(world))
  {
    DoorIsLawful(cfg, world);
    ghost var floor := store.floor.state;
    var round := EvaluateRound(store.floor, cfg, world, c, focus);
    NextRoundHolds(cfg, world, DoorOf(cfg, world), start, c, store.reserve, floor, focus, round);
    if round.Err? {
      return Err(round.error);
    }
    var (counted, batch) := round.value;
    var e := store.AdmitBatch(cfg, counted, batch, prior);
    var size: nat := |batch|;
    return Ok((e, size));
  }

  /** The checks before a round, in order. */
  function EarlyStop(cfg: Config, world: World, c: Campaign, focus: set<string>, maxRounds: int): Option<StopReason> {
    if c.rounds >= maxRounds then Some(AllReachableCandidatesEvaluated)
    else if Remaining(cfg, c) <= 0 then Some(OperationBudgetExhausted)
    else if cfg.deadline.Some? && cfg.deadline.value - world.clock(c.rounds) <= 0 then Some(CampaignDurationExhausted)
    else if Mints(world.registry(0)) - c.evaluated == {} && focus == {} then Some(NoAdditionalUniqueCandidates)
    else None
  }

  lemma StopIsExplained(cfg: Config, world: World, c: Campaign, focus: set<string>)
    requires cfg.evaluationBatchSize >= 1 && Ledger(c) && Walking(cfg, world, c) && |c.eligible| < cfg.requiredCapacity
    ensures var early := EarlyStop(cfg, world, c, focus, MaxRounds(cfg, world)); early.Some? ==> StopExplained(cfg, world, c, early.value)
  {
    NothingLeft(Mints(world.registry(0)), c.evaluated);
    if c.rounds >= MaxRounds(cfg, world) {
      CapMeansCovered(cfg, world, c);
    }
  }

  lemma NothingLeft<T>(a: set<T>, b: set<T>)
    ensures a - b == {} ==> a <= b
  {
    assert forall x :: x in a && x !in b ==> x in a - b;
  }

  lemma EarlyStopExplained(cfg: Config, world: World, start: Reserve, c: Campaign, reserve: Reserve, focus: set<string>)
    requires cfg.evaluationBatchSize >= 1 && CampaignHolds(cfg, world, start, c, reserve) && |c.eligible| < cfg.requiredCapacity
    ensures var early := EarlyStop(cfg, world, c, focus, MaxRounds(cfg, world)); early.Some? ==> StopExplained(cfg, world, c, early.value)
  {
    StopIsExplained(cfg, world, c, focus);
  }

  lemma FocusIsFocus(cfg: Config, world: World, c: Campaign, revalidate: set<string>, maxRounds: int)
    requires revalidate <= Mints(world.registry(0)) && EarlyStop(cfg, world, c, Focus(c, revalidate), maxRounds).None?
    ensures IsFocus(Mints(world.registry(0)), c, Focus(c, revalidate))
    ensures Remaining(cfg, c) > 0 && c.rounds < maxRounds
  {
    if Focus(c, revalidate) == {} {
      var m :| m in Mints(world.registry(0)) - c.evaluated;
      assert m in Mints(world.registry(0)) && m !in c.evaluated;
    }
  }

  /** The checks after a round, in order. */
  function LateStop(cfg: Config, world: World, c: Campaign, size: nat): Option<StopReason> {
    if size == 0 then Some(NoAdditionalUniqueCandidates)
    else if |c.eligible| >= cfg.requiredCapacity then Some(EligibleCapacityMet)
    else if Mints(world.registry(0)) - c.evaluated == {} then Some(AllReachableCandidatesEvaluated)
    else None
  }

  lemma LateStopExplained(cfg: Config, world: World, c: Campaign, size: nat)
    requires size == 0 ==> !FixedRegistry(world) && |c.eligible| < cfg.requiredCapacity
    ensures var late := LateStop(cfg, world, c, size);
            if late.Some? then StopExplained(cfg, world, c, late.value) else |c.eligible| < cfg.requiredCapacity
  {
    NothingLeft(Mints(world.registry(0)), c.evaluated);
  }

  /** Why a round is not begun, each reason exactly: the cap, then the budget, then the deadline, then an
      inventory without unexplored tokens and nothing left to revalidate. */
  lemma StopsBeforeRoundExactly(cfg: Config, world: World, c: Campaign, revalidate: set<string>)
    requires cfg.evaluationBatchSize >= 1
    ensures var early := EarlyStop(cfg, world, c, Focus(c, revalidate), MaxRounds(cfg, world));
            var inventory := set r | r in world.registry(0) :: r.mint;
            var capped, spent := c.rounds >= |inventory| / cfg.evaluationBatchSize + 3, c.operations >= cfg.operationBudget;
            var late := cfg.deadline.Some? && world.clock(c.rounds) >= cfg.deadline.value;
            && (early == Some(AllReachableCandidatesEvaluated) <==> capped)
            && (early == Some(OperationBudgetExhausted) <==> !capped && spent)
            && (early == Some(CampaignDurationExhausted) <==> !capped && !spent && late)
            && (early == Some(NoAdditionalUniqueCandidates)
                <==> !capped && !spent && !late && inventory <= c.evaluated && (c.rounds > 0 || revalidate <= c.evaluated))
            && (early.Some? ==> early.value !in {NotStarted, EligibleCapacityMet})
  {
    assert Mints(world.registry(0)) - c.evaluated == {} <==> Mints(world.registry(0)) <= c.evaluated by {
      NothingLeft(Mints(world.registry(0)), c.evaluated);
    }
    NothingLeft(revalidate, c.evaluated);
    assert |Mints(world.registry(0))| / cfg.evaluationBatchSize >= 0;
  }

  /** Whether the walk goes on after a round: an empty batch ends it unless it was focused and tokens were
      unexplored before it; otherwise capacity does, and then a covered inventory. */
  lemma StopsAfterRoundExactly(cfg: Config, world: World, c: Campaign, focus: set<string>, e: Campaign, size: nat, floor: FloorTable)
    ensures var n := AfterRound(cfg, world, c, focus, e, size, floor);
            var inventory := set r | r in world.registry(0) :: r.mint;
            var retried := size == 0 && focus != {} && !(inventory <= c.evaluated);
            && (n == Stopped(e, NoAdditionalUniqueCandidates) <==> size == 0 && !retried)
            && (n == Stopped(e, EligibleCapacityMet) <==> size > 0 && |e.eligible| >= cfg.requiredCapacity)
            && (n == Stopped(e, AllReachableCandidatesEvaluated) <==> size > 0 && |e.eligible| < cfg.requiredCapacity && inventory <= e.evaluated)
            && (n == GoOn(Walk(e, floor, {})) <==> retried || (size > 0 && |e.eligible| < cfg.requiredCapacity && !(inventory <= e.evaluated)))
  {
    NothingLeft(Mints(world.registry(0)), c.evaluated);
    NothingLeft(Mints(world.registry(0)), e.evaluated);
  }

  lemma FirstFocus(world: World, start: Reserve, c: Campaign, revalidate: set<string>)
    requires Ledger(c) && (c.rounds == 0 ==> c.candidates == [])
    requires c.rounds == 0 ==> revalidate == LiveMints(start) * Mints(world.registry(0))
    ensures FocusIsReserve(world, start, c, Focus(c, revalidate))
  {
    assert c.candidates == [] ==> CandidateMints(c.candidates) == {};
  }

  // ---- The loop as a function of its inputs ----

  /** Where the loop stands before a round. */
  datatype Walk = Walk(c: Campaign, floor: FloorTable, revalidate: set<string>)

  datatype Next = GoOn(walk: Walk) | Stopped(c: Campaign, stop: StopReason) | Aborted(fault: Fault)

  /** After a round: an empty focused batch is tried again without its focus, then the late checks. */
  function AfterRound(cfg: Config, world: World, c: Campaign, focus: set<string>, e: Campaign, size: nat, floor: FloorTable): Next {
    var late := LateStop(cfg, world, e, size);
    if size == 0 && Mints(world.registry(0)) - c.evaluated != {} && focus != {} then GoOn(Walk(e, floor, {}))
    else if late.Some? then Stopped(e, late.value)
    else GoOn(Walk(e, floor, {}))
  }

  function WalkOnce(cfg: Config, world: World, door: FrontDoor, w: Walk): (n: Next)
    requires cfg.evaluationBatchSize >= 1
    ensures n.GoOn? ==> n.walk.c.rounds == w.c.rounds + 1 <= MaxRounds(cfg, world)
  {
    var focus := Focus(w.c, w.revalidate);
    var early := EarlyStop(cfg, world, w.c, focus, MaxRounds(cfg, world));
    if early.Some? then Stopped(w.c, early.value)
    else
      var next := NextRound(cfg, world, door, w.floor, w.c, focus);
      var round := Admitted(next.0);
      if round.Err? then Aborted(round.error)
      else AfterRound(cfg, world, w.c, focus, round.value.0, round.value.1, next.1)
  }

  /** The whole walk: its final account and stop reason, or the fault that aborts it. */
  function Walked(cfg: Config, world: World, door: FrontDoor, w: Walk): Result<(Campaign, StopReason), Fault>
    requires cfg.evaluationBatchSize >= 1
    decreases MaxRounds(cfg, world) - w.c.rounds
  {
    match WalkOnce(cfg, world, door, w)
    case GoOn(next) => Walked(cfg, world, door, next)
    case Stopped(c, stop) => Ok((c, stop))
    case Aborted(fault) => Err(fault)
  }

  /** What the loop keeps from round to round. */
  ghost predicate LoopHolds(cfg: Config, world: World, start: Reserve, c: Campaign, revalidate: set<string>, reserve: Reserve) {
    && CampaignHolds(cfg, world, start, c, reserve) && ReserveFirst(cfg, world, start, c)
    && |c.eligible| < cfg.requiredCapacity && revalidate <= Mints(world.registry(0))
    && (c.rounds == 0 ==> revalidate == LiveMints(start) * Mints(world.registry(0)))
  }

  /** What a pass of the loop establishes. */
  ghost predicate NextHolds(cfg: Config, world: World, start: Reserve, n: Next, reserve: Reserve) {
    match n
    case GoOn(walk) => LoopHolds(cfg, world, start, walk.c, walk.revalidate, reserve)
    case Stopped(c, stop) =>
      CampaignHolds(cfg, world, start, c, reserve) && ReserveFirst(cfg, world, start, c) && StopExplained(cfg, world, c, stop)
    case Aborted(fault) => LineageMissing(world, fault)
  }

  lemma AfterRoundHolds(
    cfg: Config, world: World, start: Reserve, c: Campaign, focus: set<string>, e: Campaign, size: nat, floor: FloorTable, reserve: Reserve)
    requires |c.eligible| < cfg.requiredCapacity && e.rounds == c.rounds + 1
    requires CampaignHolds(cfg, world, start, e, reserve) && ReserveFirst(cfg, world, start, e)
    requires size == 0 ==> e.eligible == c.eligible && !FixedRegistry(world)
    ensures NextHolds(cfg, world, start, AfterRound(cfg, world, c, focus, e, size, floor), reserve)
  {
    LateStopExplained(cfg, world, e, size);
  }

  /** One pass of the loop: the checks before the round, the round, the checks after it. */
  method RunOnce(store: SupplyStore, cfg: Config, world: World, ghost start: Reserve, c: Campaign, prior: set<string>, revalidate: set<string>)
    returns (n: Next)
    requires RegistryKeyed(world) && cfg.requiredCapacity >= 1 && cfg.evaluationBatchSize >= 1 && prior == LiveMints(start)
    requires LoopHolds(cfg, world, start, c, revalidate, store.reserve)
    modifies store`reserve, store.floor
    ensures n == WalkOnce(cfg, world, DoorOf(cfg, world), Walk(c, old(store.floor.state), revalidate))
    ensures NextHolds(cfg, world, start, n, store.reserve) && (n.GoOn? ==> n.walk.floor == store.floor.state)
  {
    var unexplored := Mints(world.registry(0)) - c.evaluated;
    var focus := Focus(c, revalidate);
    var early := EarlyStop(cfg, world, c, focus, MaxRounds(cfg, world));
    EarlyStopExplained(cfg, world, start, c, store.reserve, focus);
    if early.Some? {
      return Stopped(c, early.value);
    }
    FocusIsFocus(cfg, world, c, revalidate, MaxRounds(cfg, world));
    FirstFocus(world, start, c, revalidate);
    var round := RunRound(store, cfg, world, start, c, prior, focus);
    if round.Err? {
      return Aborted(round.error);
    }
    var (e, size) := round.value;
    AfterRoundHolds(cfg, world, start, c, focus, e, size, store.floor.state, store.reserve);
    if size == 0 && unexplored != {} && focus != {} {
      // The revalidation focus may have over-constrained the batch.
      return GoOn(Walk(e, store.floor.state, {}));
    }
    var late := LateStop(cfg, world, e, size);
    return if late.Some? then Stopped(e, late.value) else GoOn(Walk(e, store.floor.state, {}));
  }

  /** The round loop. */
  method RunRounds(store: SupplyStore, cfg: Config, world: World, ghost start: Reserve, initial: Campaign, prior: set<string>)
    returns (r: Result<(Campaign, StopReason), Fault>)
    requires RegistryKeyed(world) && cfg.requiredCapacity >= 1 && cfg.evaluationBatchSize >= 1
    requires CampaignHolds(cfg, world, start, initial, store.reserve) && |initial.eligible| == 0 && prior == LiveMints(start)
    requires initial.rounds == 0 && ReserveFirst(cfg, world, start, initial)
    modifies store`reserve, store.floor
    ensures r == Walked(cfg, world, DoorOf(cfg, world), Walk(initial, old(store.floor.state), prior * Mints(world.registry(0))))
    ensures r.Err? ==> LineageMissing(world, r.error)
    ensures r.Ok? ==> var (c, stop) := r.value;
                      CampaignHolds(cfg, world, start, c, store.reserve) && ReserveFirst(cfg, world, start, c) && StopExplained(cfg, world, c, stop)
  {
    var c, stop := initial, NotStarted;
    var revalidate := prior * Mints(world.registry(0));
    ghost var first := Walk(c, store.floor.state, revalidate);
    while |c.eligible| < cfg.requiredCapacity
      invariant LoopHolds(cfg, world, start, c, revalidate, store.reserve)
      invariant Walked(cfg, world, DoorOf(cfg, world), first) == Walked(cfg, world, DoorOf(cfg, world), Walk(c, store.floor.state, revalidate))
      decreases MaxRounds(cfg, world) - c.rounds
    {
      var next := RunOnce(store, cfg, world, start, c, prior, revalidate);
      match next {
        case Aborted(fault) => return Err(fault);
        case Stopped(d, reason) =>
          c, stop := d, reason;
          break;
        case GoOn(walk) =>
          c, revalidate := walk.c, walk.revalidate;
      }
    }
    return Ok((c, stop));
  }

  // ---- The verdict ----

  /** What the classifiers are given once the loop has stopped and the inventory was read again. */
  function FactsAt(cfg: Config, world: World, c: Campaign, stop: StopReason, inventory: set<string>): Facts
    requires cfg.requiredCapacity >= 1 && cfg.evaluationBatchSize >= 1
  {
    Facts(stop, cfg.requiredCapacity, |c.eligible|, |c.evaluated|, |inventory - c.evaluated|, c.rounds, cfg.evaluationBatchSize,
          Remaining(cfg, c),
          if cfg.deadline.Some? then Some(cfg.deadline.value - world.clock(c.rounds + 1)) else None,
          |c.failures|, |c.channelsUnavailable|, Get(c.outcomes, SourceUnavailable), Get(c.outcomes, SourceRateLimitedOrStale),
          Get(c.outcomes, ResponseMalformedOrPartial), c.blocked != {})
  }

  function Concluded(cfg: Config, world: World, c: Campaign, stop: StopReason): SupplyResult
    requires cfg.requiredCapacity >= 1 && cfg.evaluationBatchSize >= 1
  {
    var inventory := Mints(world.registry(c.rounds + 1));
    if |c.eligible| >= cfg.requiredCapacity then SupplyResult(true, EligibleCapacityMet, c, inventory, None)
    else SupplyResult(false, stop, c, inventory, Some(FinalShortage(FactsAt(cfg, world, c, stop, inventory))))
  }

  /** A whole campaign behind a given front door. */
  function SupplyBy(cfg: Config, world: World, door: FrontDoor, start: Reserve, floor: FloorTable): Result<SupplyResult, Fault> {
    if Trim(cfg.cycleSeed) == "" then Err(MissingCycleSeed)
    else if cfg.requiredCapacity < 1 then Err(InvalidRequiredCapacity)
    else if cfg.evaluationBatchSize < 1 then Err(InvalidEvaluationBatchSize)
    else
      var walked := Walked(cfg, world, door, Walk(Opened(cfg, world), floor, LiveMints(start) * Mints(world.registry(0))));
      if walked.Err? then Err(walked.error) else Ok(Concluded(cfg, world, walked.value.0, walked.value.1))
  }

  /** A whole campaign, as a function of its inputs, the reserve and the floor table it finds. */
  function SupplyOf(cfg: Config, world: World, start: Reserve, floor: FloorTable): Result<SupplyResult, Fault> {
    SupplyBy(cfg, world, DoorOf(cfg, world), start, floor)
  }

  /** How a completed campaign relates to its inputs, to the reserve it found and to the one it leaves. */
  ghost predicate CampaignEnds(cfg: Config, world: World, start: Reserve, result: SupplyResult, reserve: Reserve) {
    && cfg.requiredCapacity >= 1 && cfg.evaluationBatchSize >= 1
    && CampaignHolds(cfg, world, start, result.campaign, reserve)
    && ReserveFirst(cfg, world, start, result.campaign)
    && StopExplained(cfg, world, result.campaign, result.stop)
    && result == Concluded(cfg, world, result.campaign, result.stop)
  }

  /** A whole campaign. */
  method RunPersistentSupply(store: SupplyStore, cfg: Config, world: World) returns (r: Result<SupplyResult, Fault>)
    requires RegistryKeyed(world)
    modifies store`reserve, store.floor
    ensures r == SupplyOf(cfg, world, old(store.reserve), old(store.floor.state))
    ensures Trim(cfg.cycleSeed) == "" ==> r == Err(MissingCycleSeed)
    ensures Trim(cfg.cycleSeed) != "" && cfg.requiredCapacity < 1 ==> r == Err(InvalidRequiredCapacity)
    ensures Trim(cfg.cycleSeed) != "" && cfg.requiredCapacity >= 1 && cfg.evaluationBatchSize < 1 ==> r == Err(InvalidEvaluationBatchSize)
    ensures Trim(cfg.cycleSeed) != "" && cfg.requiredCapacity >= 1 && cfg.evaluationBatchSize >= 1 && r.Err? ==> LineageMissing(world, r.error)
    ensures r.Err? && !r.error.SourceFailureLineageMissing? ==> store.reserve == old(store.reserve) && store.floor.state == old(store.floor.state)
    ensures r.Ok? ==> CampaignEnds(cfg, world, old(store.reserve), r.value, store.reserve)
  {
    if Trim(cfg.cycleSeed) == "" {
      return Err(MissingCycleSeed);
    }
    if cfg.requiredCapacity < 1 {
      return Err(InvalidRequiredCapacity);
    }
    if cfg.evaluationBatchSize < 1 {
      return Err(InvalidEvaluationBatchSize);
    }
    var c, prior := StartCampaign(store, cfg, world);
    StartHolds(cfg, world, old(store.reserve), c, store.reserve);
    var rounds := RunRounds(store, cfg, world, old(store.reserve), c, prior);
    if rounds.Err? {
      return Err(rounds.error);
    }
    return Ok(Concluded(cfg, world, rounds.value.0, rounds.value.1));
  }

  lemma StartHolds(cfg: Config, world: World, start: Reserve, c: Campaign, reserve: Reserve)
    requires Account(cfg, world, start, c, reserve) && Validated(world, c)
    requires c.candidates == [] && c.rounds == 0 && c.operations == world.stageOperations
    ensures CampaignHolds(cfg, world, start, c, reserve)
  {
    assert CandidateMints(c.candidates) == {};
  }

  // ---- What a completed campaign guarantees ----

  ghost predicate NoSourceFault(c: Campaign) {
    forall x :: x in c.candidates ==> !IsSourceFault(x.evidence.outcome)
  }

  lemma FaultsSeen(c: Campaign)
    requires OutcomesCounted(c)
    ensures FaultSeen(c) <==> !NoSourceFault(c)
  {
    if FaultSeen(c) {
      var category :| IsSourceFault(category) && Get(c.outcomes, category) > 0;
      CountOutcomePositive(c.candidates, category);
      var i :| 0 <= i < |c.candidates| && c.candidates[i].evidence.outcome == category;
      assert c.candidates[i] in c.candidates;
    }
    if x :| x in c.candidates && IsSourceFault(x.evidence.outcome) {
      var i :| 0 <= i < |c.candidates| && c.candidates[i] == x;
      CountOutcomePositive(c.candidates, x.evidence.outcome);
      assert Get(c.outcomes, x.evidence.outcome) > 0;
    }
  }

  lemma EvidenceFailedExactly(cfg: Config, world: World, c: Campaign, stop: StopReason, inventory: set<string>)
    requires cfg.requiredCapacity >= 1 && cfg.evaluationBatchSize >= 1
    requires OutcomesCounted(c) && ChannelsFollow(world, c) && StageFacts(world) <= c.failures
    ensures FactsAt(cfg, world, c, stop, inventory).EvidenceFailed() <==> !NoSourceFault(c) || world.governedFailures != []
  {
    FaultsSeen(c);
    var f := FactsAt(cfg, world, c, stop, inventory);
    assert FaultSeen(c) <==> f.sourceUnavailable > 0 || f.staleOrRateLimited > 0 || f.malformedOrPartial > 0 by {
      assert IsSourceFault(SourceUnavailable) && IsSourceFault(SourceRateLimitedOrStale) && IsSourceFault(ResponseMalformedOrPartial);
    }
    if world.governedFailures != [] {
      var g := world.governedFailures[0];
      assert g in world.governedFailures;
      assert g.fact in c.failures && g.channel in c.channelsUnavailable;
    }
  }

  lemma DifferenceEmpty<T>(a: set<T>, b: set<T>)
    ensures |a - b| == 0 <==> a <= b
  {
    assert forall x :: x in a && x !in b ==> x in a - b;
  }

  lemma VerdictBlamesMarket(cfg: Config, world: World, c: Campaign, stop: StopReason, inventory: set<string>)
    requires cfg.requiredCapacity >= 1 && cfg.evaluationBatchSize >= 1 && |c.eligible| < cfg.requiredCapacity
    requires stop != NotStarted && stop != EligibleCapacityMet
    requires OutcomesCounted(c) && ChannelsFollow(world, c) && StageFacts(world) <= c.failures
    ensures FinalShortage(FactsAt(cfg, world, c, stop, inventory)) == TrueMarketSupplyShortage
            <==> && inventory <= c.evaluated && c.evaluated != {}
                 && NoSourceFault(c) && world.governedFailures == [] && c.blocked == {}
                 && stop in {AllReachableCandidatesEvaluated, NoAdditionalUniqueCandidates}
  {
    EvidenceFailedExactly(cfg, world, c, stop, inventory);
    MarketIsBlamedExactlyWhen(FactsAt(cfg, world, c, stop, inventory));
    DifferenceEmpty(inventory, c.evaluated);
  }

  /** Honest exhaustion: a campaign that ends short blames the market exactly when every token of
      the inventory, read again at the end, was evaluated, there was at least one, no evaluation
      lacked its evidence, no governed failure was recorded, tracking held no token back, and
      neither budget nor deadline stopped the walk. */
  lemma HonestExhaustion(cfg: Config, world: World, start: Reserve, result: SupplyResult, reserve: Reserve)
    requires CampaignEnds(cfg, world, start, result, reserve) && !result.ready
    ensures var c := result.campaign;
            result.shortage == Some(TrueMarketSupplyShortage)
            <==> && result.inventory <= c.evaluated && c.evaluated != {}
                 && NoSourceFault(c) && world.governedFailures == [] && c.blocked == {}
                 && result.stop in {AllReachableCandidatesEvaluated, NoAdditionalUniqueCandidates}
  {
    VerdictBlamesMarket(cfg, world, result.campaign, result.stop, result.inventory);
  }

  /** The inventory of a verdict is the one that is read after the last round. */
  lemma InventoryIsReadAgain(cfg: Config, world: World, result: SupplyResult, mint: string)
    requires cfg.requiredCapacity >= 1 && cfg.evaluationBatchSize >= 1 && result == Concluded(cfg, world, result.campaign, result.stop)
    ensures mint in result.inventory <==> exists r :: r in world.registry(result.campaign.rounds + 1) && r.mint == mint
  {
  }

  /** The walk ended with tokens unexplored, time left at the last reading of the clock, and nothing held back. */
  ghost predicate LeftUnexplored(cfg: Config, world: World, c: Campaign, stop: StopReason, inventory: set<string>) {
    && stop in {AllReachableCandidatesEvaluated, NoAdditionalUniqueCandidates}
    && !(inventory <= c.evaluated) && c.blocked == {} && (c.failures == {} || c.evaluated != {})
    && (cfg.deadline.None? || world.clock(c.rounds + 1) < cfg.deadline.value)
  }

  /** A short campaign without failed evidence blames the budget exactly when the budget stopped it, or
      when it left tokens unexplored with no operation to spare; and its architecture exactly when it left
      tokens unexplored with operations to spare. */
  lemma BudgetOrArchitecture(cfg: Config, world: World, start: Reserve, result: SupplyResult, reserve: Reserve)
    requires CampaignEnds(cfg, world, start, result, reserve) && !result.ready
    requires NoSourceFault(result.campaign) && world.governedFailures == []
    ensures result.shortage == Some(BudgetExhaustion)
            <==> result.stop == OperationBudgetExhausted
                 || (LeftUnexplored(cfg, world, result.campaign, result.stop, result.inventory) && result.campaign.operations >= cfg.operationBudget)
    ensures result.shortage == Some(DiscoveryArchitectureFalseShortage)
            <==> LeftUnexplored(cfg, world, result.campaign, result.stop, result.inventory) && result.campaign.operations < cfg.operationBudget
  {
    VerdictBlamesOther(cfg, world, result.campaign, result.stop, result.inventory);
  }

  lemma VerdictBlamesOther(cfg: Config, world: World, c: Campaign, stop: StopReason, inventory: set<string>)
    requires cfg.requiredCapacity >= 1 && cfg.evaluationBatchSize >= 1 && |c.eligible| < cfg.requiredCapacity
    requires stop != NotStarted && stop != EligibleCapacityMet && NoSourceFault(c) && world.governedFailures == []
    requires OutcomesCounted(c) && ChannelsFollow(world, c) && StageFacts(world) <= c.failures
    ensures FinalShortage(FactsAt(cfg, world, c, stop, inventory)) == BudgetExhaustion
            <==> stop == OperationBudgetExhausted || (LeftUnexplored(cfg, world, c, stop, inventory) && c.operations >= cfg.operationBudget)
    ensures FinalShortage(FactsAt(cfg, world, c, stop, inventory)) == DiscoveryArchitectureFalseShortage
            <==> LeftUnexplored(cfg, world, c, stop, inventory) && c.operations < cfg.operationBudget
  {
    EvidenceFailedExactly(cfg, world, c, stop, inventory);
    DifferenceEmpty(inventory, c.evaluated);
    BudgetIsBlamedExactlyWhen(FactsAt(cfg, world, c, stop, inventory));
    ArchitectureIsBlamedExactlyWhen(FactsAt(cfg, world, c, stop, inventory));
  }

  /** The reserve after a campaign: fresh rows are exactly the tokens this campaign validated, each
      on its own pool at or above the floor; every other row that was live is now stale, excluded
      or removed; rows that were not live stay as they were. */
  lemma ReserveFreshness(cfg: Config, world: World, start: Reserve, result: SupplyResult, reserve: Reserve, mint: string)
    requires CampaignEnds(cfg, world, start, result, reserve)
    ensures mint in reserve && reserve[mint].status == EligibleFresh
            <==> mint in result.campaign.eligible
    ensures mint in result.campaign.eligible ==>
              && reserve[mint] == FreshRow(cfg, result.campaign.eligible[mint])
              && exists k: nat :: 1 <= k <= result.campaign.rounds
                                  && MeetsFloor(result.campaign.eligible[mint].row, reserve[mint].usd, world.market(k))
    ensures mint in start && start[mint].status in {EligibleFresh, EligibleStale} && mint !in result.campaign.eligible ==>
              && mint in reserve
              && reserve[mint].status == if mint in result.campaign.blocked then Excluded
                                         else if mint in result.campaign.evaluated then Removed else EligibleStale
    ensures (mint !in start || start[mint].status in {Removed, Excluded}) && mint !in result.campaign.eligible ==> Lookup(reserve, mint) == Lookup(start, mint)
  {
    var c := result.campaign;
    assert Lookup(reserve, mint) == RowAfter(cfg, Lookup(start, mint), c, mint);
    if mint in c.eligible {
      var k: nat :| 1 <= k <= c.rounds && MeetsFloor(c.eligible[mint].row, c.eligible[mint].evidence.usd, world.market(k));
      assert MeetsFloor(c.eligible[mint].row, reserve[mint].usd, world.market(k));
    }
  }

  /** A prior reserve that fits into the first batch is revalidated in full: none of its members that
      is still registered and free stays stale. */
  lemma SmallReserveIsRevalidated(cfg: Config, world: World, start: Reserve, result: SupplyResult, reserve: Reserve)
    requires CampaignEnds(cfg, world, start, result, reserve) && FixedRegistry(world) && result.campaign.rounds > 0
    requires |ReserveFocus(world, start, result.campaign)| <= FirstBatchSize(cfg, world)
    ensures ReserveFocus(world, start, result.campaign) <= result.campaign.evaluated
  {
    FocusCovered(ReserveFocus(world, start, result.campaign), result.campaign);
  }

  lemma FocusCovered(focus: set<string>, c: Campaign)
    requires FocusFirst(focus, |focus|, c) && c.rounds > 0 && Ledger(c)
    ensures focus <= c.evaluated
  {
    var first := c.candidates[..|focus|];
    CandidateMintCount(first);
    SubsetOfSameSize(CandidateMints(first), focus);
    assert CandidateMints(first) <= CandidateMints(c.candidates);
  }

  lemma OvershotCalls(cfg: Config, world: World, c: Campaign)
    requires Overshot(cfg, world, c) && c.operations == world.stageOperations + MarketCalls(c.candidates)
    ensures c.operations == cfg.operationBudget + 1 && c.operations >= world.stageOperations + 2
  {
    var n := |c.candidates|;
    assert c.candidates == c.candidates[..n - 2] + c.candidates[n - 2..];
    MarketCallsConcat(c.candidates[..n - 2], c.candidates[n - 2..]);
  }

  /** Operations exceed the budget, and what the earlier stages had already spent, exactly when the
      last batch of one met two partitions with a single operation left, and then by one. */
  lemma OperationsBounded(cfg: Config, world: World, start: Reserve, result: SupplyResult, reserve: Reserve)
    requires CampaignEnds(cfg, world, start, result, reserve)
    ensures result.campaign.operations > Max(world.stageOperations, cfg.operationBudget) <==> Overshot(cfg, world, result.campaign)
    ensures result.campaign.operations <= Max(world.stageOperations, cfg.operationBudget + 1)
    ensures world.stageOperations >= cfg.operationBudget ==> result.campaign.operations == world.stageOperations
  {
    if Overshot(cfg, world, result.campaign) {
      OvershotCalls(cfg, world, result.campaign);
    }
  }

  /** No token is evaluated twice, so evaluated tokens, blocked tokens and recorded candidates
      add up, and no operation is spent on a blocked token. */
  lemma EvaluatedOnce(cfg: Config, world: World, start: Reserve, result: SupplyResult, reserve: Reserve)
    requires CampaignEnds(cfg, world, start, result, reserve)
    ensures |result.campaign.evaluated| == |result.campaign.blocked| + |result.campaign.candidates|
    ensures result.campaign.duplicates == 0
  {
    var c := result.campaign;
    CandidateMintCount(c.candidates);
    assert c.blocked !! CandidateMints(c.candidates);
  }

  /** Over a fixed inventory, with a budget for one call per token and one more batch, the budget
      never shrinks a batch. */
  lemma BudgetCovers(cfg: Config, world: World, c: Campaign)
    requires FixedRegistry(world) && Ledger(c) && Walking(cfg, world, c)
    requires c.operations == world.stageOperations + MarketCalls(c.candidates)
    requires cfg.operationBudget >= world.stageOperations + |Mints(world.registry(0))| + cfg.evaluationBatchSize
    ensures c.operations + cfg.evaluationBatchSize <= cfg.operationBudget
  {
    EvaluatedInInventory(world, c);
  }

  /** Over a fixed inventory, when the budget never shrank a batch, the round cap and an empty walk
      only stop a campaign that has evaluated every token: the cap never fires early. */
  lemma CapNeverFiresEarly(cfg: Config, world: World, start: Reserve, result: SupplyResult, reserve: Reserve)
    requires CampaignEnds(cfg, world, start, result, reserve) && FixedRegistry(world) && NeverShrunk(cfg, result.campaign)
    ensures result.stop in {AllReachableCandidatesEvaluated, NoAdditionalUniqueCandidates} ==> result.inventory <= result.campaign.evaluated
    ensures result.campaign.rounds <= MaxRounds(cfg, world) || result.inventory <= result.campaign.evaluated
  {
    var c := result.campaign;
    assert result.inventory == Mints(world.registry(0));
    if c.rounds >= MaxRounds(cfg, world) {
      CapMeansCovered(cfg, world, c);
    }
  }

  lemma CoveredVerdict(f: Facts)
    requires f.StoppedShort() && f.stop != OperationBudgetExhausted && (f.stop == CampaignDurationExhausted || f.unexplored == 0)
    ensures FinalShortage(f) !in {BudgetExhaustion, DiscoveryArchitectureFalseShortage}
  {
  }

  /** Coverage: over a fixed inventory, with a budget that covers one call per token and one more
      batch, only the deadline can end a short campaign before every token was evaluated. */
  lemma Coverage(cfg: Config, world: World, start: Reserve, result: SupplyResult, reserve: Reserve)
    requires RegistryKeyed(world) && CampaignEnds(cfg, world, start, result, reserve) && FixedRegistry(world) && !result.ready
    requires cfg.operationBudget >= world.stageOperations + |Mints(world.registry(0))| + cfg.evaluationBatchSize
    ensures result.stop == CampaignDurationExhausted || result.inventory <= result.campaign.evaluated
    ensures result.stop != OperationBudgetExhausted
    ensures result.shortage.value !in {BudgetExhaustion, DiscoveryArchitectureFalseShortage}
  {
    var c := result.campaign;
    BudgetCovers(cfg, world, c);
    assert result.inventory == Mints(world.registry(0));
    DifferenceEmpty(result.inventory, c.evaluated);
    CoveredVerdict(FactsAt(cfg, world, c, result.stop, result.inventory));
  }
}
