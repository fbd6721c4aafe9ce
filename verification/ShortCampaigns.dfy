/** Campaigns in which nothing becomes eligible: how far the walk gets, and what is blamed. */
module ShortCampaigns {
  import opened Common
  import opened RefreshBatch
  import opened LiquidityFrontDoor
  import opened ShortageVerdict
  import opened EligibleSupply
  import opened SupplyCampaign

  // ---- A round without a single eligible candidate ----

  predicate IsFruitless(x: Candidate) {
    !x.Eligible() && x.evidence.failureId.None? && !IsSourceFault(x.evidence.outcome)
  }

  /** Nothing is eligible or blocked, and no evidence has failed. */
  ghost predicate NothingFound(c: Campaign) {
    && c.eligible == map[] && c.blocked == {} && c.channelsUnavailable == {}
    && forall category :: IsSourceFault(category) ==> Get(c.outcomes, category) == 0
  }

  lemma FruitlessCounts(batch: seq<Candidate>, category: OutcomeCategory)
    requires IsSourceFault(category) && forall x :: x in batch ==> IsFruitless(x)
    ensures CountOutcome(batch, category) == 0
  {
    forall i | 0 <= i < |batch| ensures batch[i].evidence.outcome != category {
      assert IsFruitless(batch[i]);
    }
    CountOutcomePositive(batch, category);
  }

  lemma FruitlessCounted(c: Campaign, d: Campaign, batch: seq<Candidate>)
    requires NothingFound(c) && Counted(c, d, batch) && forall x :: x in batch ==> IsFruitless(x)
    ensures NothingFound(d)
  {
    forall category | IsSourceFault(category) ensures Get(d.outcomes, category) == 0 {
      FruitlessCounts(batch, category);
    }
  }

  lemma FruitlessAdmitted(d: Campaign, batch: seq<Candidate>)
    requires NothingFound(d) && NewBatch(d, batch) && forall x :: x in batch ==> IsFruitless(x)
    ensures NothingFound(AdmitAll(d, batch))
  {
    var e := AdmitAll(d, batch);
    AdmitAllRecords(d, batch);
    if m :| m in e.eligible {
      AdmittedEligible(d, batch, m);
    }
  }

  lemma FruitlessOwned(world: World, batch: seq<Candidate>)
    requires forall x :: x in batch ==> IsFruitless(x)
    ensures OwnersKnown(world, batch)
  {
    assert forall i :: 0 <= i < |batch| ==> IsFruitless(batch[i]);
  }

  /** The batch was evaluated and charged, and nothing was found. */
  ghost predicate BatchAdded(c: Campaign, batch: seq<Candidate>, e: Campaign) {
    && NothingFound(e) && e.rounds == c.rounds + 1 && e.evaluated == c.evaluated + CandidateMints(batch)
    && e.operations == c.operations + MarketCalls(batch)
  }

  lemma FruitlessRound(
    world: World, c: Campaign, size: nat, exclude: set<string>, batch: seq<Candidate>, round: Result<(Campaign, seq<Candidate>), Fault>)
    requires RegistryKeyed(world) && IsRoundBatch(world, c.rounds + 1, size, exclude, batch) && c.evaluated <= exclude
    requires NothingFound(c) && forall x :: x in batch ==> IsFruitless(x)
    requires round == RoundCounted(world, c, batch)
    ensures round.Ok? && round.value.1 == batch
    ensures BatchAdded(c, batch, AdmitAll(round.value.0, batch))
  {
    FruitlessOwned(world, batch);
    RoundCountedIs(world, c, batch);
    var d := round.value.0;
    FruitlessCounted(c, d, batch);
    RoundIsNew(world, c, d, c.rounds + 1, size, exclude, batch);
    FruitlessAdmitted(d, batch);
    RoundRecords(world, c, d, size, exclude, batch);
  }

  // ---- The round cap can fire early ----

  /** No row of the list needs a market call: each is unconfirmed or in an active cooldown. */
  predicate AllQuiet(floor: FloorTable, rows: seq<Row>, now: int) {
    forall r :: r in rows ==> !NeedsMarketCall(floor, r, now)
  }

  lemma {:induction false} QuietBatch(floor: FloorTable, rows: seq<Row>, latestMints: set<string>, now: int, market: Market)
    requires AllQuiet(floor, rows, now)
    ensures FloorAfter(floor, rows, now, market) == floor
    ensures MarketCalls(Evaluated(floor, rows, latestMints, now, market)) == 0
    ensures forall x :: x in Evaluated(floor, rows, latestMints, now, market) ==> IsFruitless(x)
    decreases |rows|
  {
    if rows != [] {
      var front, last := rows[..|rows| - 1], rows[|rows| - 1];
      assert forall r :: r in front ==> r in rows;
      QuietBatch(floor, front, latestMints, now, market);
      assert last in rows && !NeedsMarketCall(floor, last, now);
      assert IsFruitless(EvaluateRow(floor, last, latestMints, now, market));
    }
  }

  /** A fixed registry of rows that need no market call, none of them blocked, operations left to
      spend, and a deadline that never passes. */
  ghost predicate QuietSupply(cfg: Config, world: World, floor: FloorTable) {
    && RegistryKeyed(world) && FixedRegistry(world) && AllQuiet(floor, world.registry(0), cfg.now)
    && cfg.operationBudget > world.stageOperations && Undisturbed(cfg, world)
  }

  ghost predicate Undisturbed(cfg: Config, world: World) {
    && Trim(cfg.cycleSeed) != "" && cfg.evaluationBatchSize >= 1 && cfg.requiredCapacity >= 1
    && (cfg.deadline.Some? ==> forall k: nat :: world.clock(k) < cfg.deadline.value)
    && BlockedMints(cfg, world, world.registry(0)) == {} && world.governedFailures == []
  }

  function LatestTokens(world: World): set<string> {
    Mints(world.registry(0)) * world.latestMints
  }

  function PersistedTokens(world: World): set<string> {
    Mints(world.registry(0)) - world.latestMints
  }

  /** How many tokens k rounds take: a batch of one takes a token of each kind that has one. */
  function Reach(latest: nat, persisted: nat, size: int, k: nat): int {
    if size == 1 then Min(latest, k) + Min(persisted, k) else Min(latest + persisted, k * size)
  }

  predicate Reached(world: World, size: int, evaluated: set<string>, k: nat) {
    if size == 1 then
      |evaluated * world.latestMints| == Min(|LatestTokens(world)|, k) && |evaluated - world.latestMints| == Min(|PersistedTokens(world)|, k)
    else |evaluated| == Min(|Mints(world.registry(0))|, Full(k, size))
  }

  /** One new token of each kind that still has one. */
  predicate OneFromEach(world: World, evaluated: set<string>, taken: set<string>) {
    && |taken * world.latestMints| == (if LatestTokens(world) <= evaluated then 0 else 1)
    && |taken - world.latestMints| == (if PersistedTokens(world) <= evaluated then 0 else 1)
  }

  lemma ReachedNext(world: World, size: int, evaluated: set<string>, k: nat, taken: set<string>)
    requires size >= 1 && Reached(world, size, evaluated, k) && evaluated <= Mints(world.registry(0))
    requires taken <= Mints(world.registry(0)) - evaluated
    requires if size == 1 then OneFromEach(world, evaluated, taken) else |taken| == Min(size, |Mints(world.registry(0)) - evaluated|)
    ensures Reached(world, size, evaluated + taken, k + 1)
  {
    var latest := world.latestMints;
    if size == 1 {
      assert (evaluated + taken) * latest == evaluated * latest + taken * latest;
      assert (evaluated + taken) - latest == (evaluated - latest) + (taken - latest);
      PartGrows(LatestTokens(world), evaluated, evaluated * latest, taken * latest, k);
      PartGrows(PersistedTokens(world), evaluated, evaluated - latest, taken - latest, k);
    } else {
      assert |Mints(world.registry(0)) - evaluated| == |Mints(world.registry(0))| - |evaluated|;
    }
  }

  lemma PartGrows(part: set<string>, evaluated: set<string>, own: set<string>, taken: set<string>, k: nat)
    requires own == evaluated * part && taken !! own && |own| == Min(|part|, k)
    requires |taken| == (if part <= evaluated then 0 else 1)
    ensures |own + taken| == Min(|part|, k + 1)
  {
    if part <= evaluated {
      assert own == part;
    } else if |own| == |part| {
      SubsetOfSameSize(own, part);
      assert false;
    } else {
      SubsetIsSmaller(own, part);
    }
  }

  /** What has been taken after some rounds; no operation has been spent. */
  ghost predicate Taken(cfg: Config, world: World, c: Campaign) {
    && NothingFound(c) && c.evaluated <= Mints(world.registry(0)) && c.operations == world.stageOperations
    && c.rounds <= MaxRounds(cfg, world) && Reached(world, FirstBatchSize(cfg, world), c.evaluated, c.rounds)
  }

  /** Whatever a round excludes, its batch costs nothing, finds nothing and leaves the floor table;
      a batch of one takes a token of each kind. */
  ghost predicate QuietAt(world: World, door: FrontDoor, floor: FloorTable, round: nat, size: nat, exclude: set<string>) {
    var batch := door.batch(floor, round, size, exclude);
    && door.after(floor, round, size, exclude) == floor && MarketCalls(batch) == 0 && (forall x :: x in batch ==> IsFruitless(x))
    && (size == 1 ==> OneFromEach(world, exclude, CandidateMints(batch)))
  }

  ghost predicate QuietDoor(world: World, door: FrontDoor, floor: FloorTable) {
    Lawful(world, door) && forall round: nat, size: nat, exclude: set<string> :: QuietAt(world, door, floor, round, size, exclude)
  }

  lemma EvaluatedMints(floor: FloorTable, rows: seq<Row>, latestMints: set<string>, now: int, market: Market)
    ensures CandidateMints(Evaluated(floor, rows, latestMints, now, market)) == Mints(rows)
  {
    var batch := Evaluated(floor, rows, latestMints, now, market);
    forall r | r in rows ensures r.mint in CandidateMints(batch) {
      var i :| 0 <= i < |rows| && rows[i] == r;
      assert batch[i] in batch;
    }
    forall x | x in batch ensures x.row in rows {
      var i :| 0 <= i < |batch| && batch[i] == x;
    }
  }

  lemma RowsFromEach(world: World, seed: string, exclude: set<string>)
    ensures OneFromEach(world, exclude, Mints(BoundedRefreshRows(world.registry(0), world.latestMints, seed, world.digest, 1, exclude)))
  {
    var rows, latest := world.registry(0), world.latestMints;
    var a, b := BatchOfOneTakesEach(rows, latest, seed, world.digest, exclude);
    MintsSplit(a, b, latest);
    MintsOfOne(a);
    MintsOfOne(b);
    PartExhausted(LatestTokens(world), a, exclude);
    PartExhausted(PersistedTokens(world), b, exclude);
  }

  lemma MintsSplit(a: seq<Row>, b: seq<Row>, latest: set<string>)
    requires (forall r :: r in a ==> r.mint in latest) && (forall r :: r in b ==> r.mint !in latest)
    ensures Mints(a + b) * latest == Mints(a) && Mints(a + b) - latest == Mints(b)
  {
    assert forall r :: r in a + b <==> r in a || r in b;
  }

  /** The rows taken of a part are none exactly when nothing of it is left. */
  lemma PartExhausted(part: set<string>, taken: seq<Row>, exclude: set<string>)
    requires (forall r :: r in taken ==> r.mint in part && r.mint !in exclude) && (taken == [] ==> part <= exclude)
    ensures taken == [] <==> part <= exclude
  {
    if taken != [] {
      assert taken[0] in taken;
    }
  }

  lemma MintsOfOne(rows: seq<Row>)
    requires |rows| <= 1
    ensures |Mints(rows)| == |rows|
  {
    if rows != [] {
      assert rows == [rows[0]] && Mints(rows) == {rows[0].mint};
    } else {
      assert Mints(rows) == {};
    }
  }

  lemma DoorIsQuiet(cfg: Config, world: World, floor: FloorTable)
    requires QuietSupply(cfg, world, floor)
    ensures QuietDoor(world, DoorOf(cfg, world), floor)
  {
    DoorIsLawful(cfg, world);
    forall round: nat, size: nat, exclude: set<string> ensures QuietAt(world, DoorOf(cfg, world), floor, round, size, exclude) {
      var rows := RoundRows(cfg, world, round, size, exclude);
      BatchRows(world.registry(round), world.latestMints, RoundSeed(cfg.cycleSeed, round), world.digest, size, exclude);
      assert world.registry(round) == world.registry(0);
      QuietBatch(floor, rows, world.latestMints, cfg.now, world.market(round));
      EvaluatedMints(floor, rows, world.latestMints, cfg.now, world.market(round));
      RowsFromEach(world, RoundSeed(cfg.cycleSeed, round), exclude);
    }
  }

  /** The tokens of a larger batch: as many as fit. */
  lemma ManyTaken(world: World, round: nat, size: nat, evaluated: set<string>, batch: seq<Candidate>)
    requires RegistryKeyed(world) && FixedRegistry(world) && size > 1 && IsRoundBatch(world, round, size, evaluated, batch)
    ensures |CandidateMints(batch)| == Min(size, |Mints(world.registry(0)) - evaluated|)
  {
    assert world.registry(round) == world.registry(0);
    AvailableIsUnexplored(world.registry(0), evaluated);
    CandidateMintCount(batch);
  }

  /** The next round's tokens: new ones, as many as fit, or one of each kind. */
  ghost predicate Takes(world: World, size: nat, evaluated: set<string>, taken: set<string>) {
    && taken <= Mints(world.registry(0)) - evaluated
    && if size == 1 then OneFromEach(world, evaluated, taken) else |taken| == Min(size, |Mints(world.registry(0)) - evaluated|)
  }

  lemma BatchTakes(world: World, round: nat, size: nat, evaluated: set<string>, batch: seq<Candidate>)
    requires RegistryKeyed(world) && FixedRegistry(world) && size > 0 && IsRoundBatch(world, round, size, evaluated, batch)
    requires size == 1 ==> OneFromEach(world, evaluated, CandidateMints(batch))
    ensures Takes(world, size, evaluated, CandidateMints(batch)) && (batch == [] ==> Mints(world.registry(0)) <= evaluated)
  {
    BatchInInventory(world, round, size, evaluated, batch);
    ShortBatchCompletes(world, round, size, evaluated, batch);
    NothingLeft(Mints(world.registry(0)), evaluated);
    if size > 1 {
      ManyTaken(world, round, size, evaluated, batch);
    }
  }

  lemma TakenNext(cfg: Config, world: World, c: Campaign, size: nat, batch: seq<Candidate>, e: Campaign)
    requires Taken(cfg, world, c) && c.rounds < MaxRounds(cfg, world) && size == FirstBatchSize(cfg, world) && size >= 1
    requires Takes(world, size, c.evaluated, CandidateMints(batch)) && MarketCalls(batch) == 0 && BatchAdded(c, batch, e)
    ensures Taken(cfg, world, e)
  {
    ReachedNext(world, size, c.evaluated, c.rounds, CandidateMints(batch));
  }

  lemma QuietRoundCounted(cfg: Config, world: World, c: Campaign, size: nat, batch: seq<Candidate>, round: Result<(Campaign, seq<Candidate>), Fault>)
    requires RegistryKeyed(world) && Taken(cfg, world, c) && c.rounds < MaxRounds(cfg, world)
    requires size == FirstBatchSize(cfg, world) && size >= 1 && Takes(world, size, c.evaluated, CandidateMints(batch))
    requires IsRoundBatch(world, c.rounds + 1, size, c.evaluated, batch) && MarketCalls(batch) == 0 && forall x :: x in batch ==> IsFruitless(x)
    requires round == RoundCounted(world, c, batch)
    ensures round.Ok? && round.value.1 == batch
    ensures var e := AdmitAll(round.value.0, batch); Taken(cfg, world, e) && e.rounds == c.rounds + 1
  {
    FruitlessRound(world, c, size, c.evaluated, batch, round);
    TakenNext(cfg, world, c, size, batch, AdmitAll(round.value.0, batch));
  }

  lemma QuietOffer(
    cfg: Config, world: World, door: FrontDoor, floor: FloorTable, c: Campaign, size: nat,
    next: (Result<(Campaign, seq<Candidate>), Fault>, FloorTable)) returns (batch: seq<Candidate>)
    requires QuietDoor(world, door, floor) && cfg.evaluationBatchSize >= 1 && size == BatchSizeOf(cfg, c) && size > 0
    requires next == NextRound(cfg, world, door, floor, c, {})
    ensures next.1 == floor && next.0 == RoundCounted(world, c, batch)
    ensures IsRoundBatch(world, c.rounds + 1, size, c.evaluated, batch) && MarketCalls(batch) == 0 && forall x :: x in batch ==> IsFruitless(x)
    ensures size == 1 ==> OneFromEach(world, c.evaluated, CandidateMints(batch))
  {
    batch := door.batch(floor, c.rounds + 1, size, c.evaluated);
    assert QuietAt(world, door, floor, c.rounds + 1, size, c.evaluated);
  }

  lemma QuietRound(
    cfg: Config, world: World, door: FrontDoor, floor: FloorTable, c: Campaign, next: (Result<(Campaign, seq<Candidate>), Fault>, FloorTable))
    requires QuietSupply(cfg, world, floor) && QuietDoor(world, door, floor)
    requires Taken(cfg, world, c) && c.rounds < MaxRounds(cfg, world) && !(Mints(world.registry(0)) <= c.evaluated)
    requires next == NextRound(cfg, world, door, floor, c, {})
    ensures next.1 == floor && next.0.Ok? && |next.0.value.1| > 0
    ensures var e := AdmitAll(next.0.value.0, next.0.value.1); Taken(cfg, world, e) && e.rounds == c.rounds + 1
  {
    var size := FirstBatchSize(cfg, world);
    var batch := QuietOffer(cfg, world, door, floor, c, size, next);
    BatchTakes(world, c.rounds + 1, size, c.evaluated, batch);
    QuietRoundCounted(cfg, world, c, size, batch, next.0);
  }

  /** The walk ended at the round cap, or with every token taken. */
  ghost predicate EndedTaken(cfg: Config, world: World, c: Campaign, stop: StopReason) {
    && stop in {AllReachableCandidatesEvaluated, NoAdditionalUniqueCandidates} && Taken(cfg, world, c)
    && (c.rounds == MaxRounds(cfg, world) || Mints(world.registry(0)) <= c.evaluated)
  }

  lemma QuietAfterRound(cfg: Config, world: World, floor: FloorTable, c: Campaign, e: Campaign, size: nat)
    requires Taken(cfg, world, e) && cfg.requiredCapacity >= 1 && size > 0
    ensures var n := AfterRound(cfg, world, c, {}, e, size, floor);
            n == GoOn(Walk(e, floor, {})) || (n.Stopped? && n.c == e && EndedTaken(cfg, world, e, n.stop))
  {
    NothingLeft(Mints(world.registry(0)), e.evaluated);
  }

  lemma QuietOnce(cfg: Config, world: World, door: FrontDoor, w: Walk, n: Next)
    requires QuietSupply(cfg, world, w.floor) && QuietDoor(world, door, w.floor) && Taken(cfg, world, w.c) && Focus(w.c, w.revalidate) == {}
    requires n == WalkOnce(cfg, world, door, w)
    ensures n.GoOn? ==> n.walk.floor == w.floor && n.walk.revalidate == {} && Taken(cfg, world, n.walk.c)
    ensures n.Stopped? ==> EndedTaken(cfg, world, n.c, n.stop)
    ensures !n.Aborted?
  {
    NothingLeft(Mints(world.registry(0)), w.c.evaluated);
    if w.c.rounds < MaxRounds(cfg, world) && !(Mints(world.registry(0)) <= w.c.evaluated) {
      var next := NextRound(cfg, world, door, w.floor, w.c, {});
      QuietRound(cfg, world, door, w.floor, w.c, next);
      QuietAfterRound(cfg, world, w.floor, w.c, AdmitAll(next.0.value.0, next.0.value.1), |next.0.value.1|);
    }
  }

  lemma {:induction false} QuietWalk(cfg: Config, world: World, door: FrontDoor, w: Walk)
    requires QuietSupply(cfg, world, w.floor) && QuietDoor(world, door, w.floor) && Taken(cfg, world, w.c) && Focus(w.c, w.revalidate) == {}
    ensures var r := Walked(cfg, world, door, w); r.Ok? && EndedTaken(cfg, world, r.value.0, r.value.1)
    decreases MaxRounds(cfg, world) - w.c.rounds
  {
    var n := WalkOnce(cfg, world, door, w);
    QuietOnce(cfg, world, door, w, n);
    if n.GoOn? {
      QuietWalk(cfg, world, door, n.walk);
    }
  }

  lemma OpenedEmpty(cfg: Config, world: World)
    requires BlockedMints(cfg, world, world.registry(0)) == {} && world.governedFailures == []
    ensures NothingFound(Opened(cfg, world)) && Opened(cfg, world).evaluated == {}
  {
    assert StageChannels(world) == {};
  }

  /** No fresh or stale row of the reserve is still registered. */
  predicate NothingToRevalidate(world: World, start: Reserve) {
    LiveMints(start) * Mints(world.registry(0)) == {}
  }

  lemma WalkedConcludes(cfg: Config, world: World, door: FrontDoor, start: Reserve, floor: FloorTable, c: Campaign, stop: StopReason)
    requires Trim(cfg.cycleSeed) != "" && cfg.requiredCapacity >= 1 && cfg.evaluationBatchSize >= 1 && NothingToRevalidate(world, start)
    requires Walked(cfg, world, door, Walk(Opened(cfg, world), floor, {})) == Ok((c, stop))
    ensures SupplyBy(cfg, world, door, start, floor) == Ok(Concluded(cfg, world, c, stop))
  {
  }

  /** Every token can be taken within k rounds. */
  predicate Fits(latest: nat, persisted: nat, size: int, k: nat) {
    if size == 1 then latest <= k && persisted <= k else latest + persisted <= k * size
  }

  /** As many tokens were evaluated as the cap has room for. */
  ghost predicate EndedAtCap(cfg: Config, world: World, r: SupplyResult) {
    var latest, persisted, size, k := |LatestTokens(world)|, |PersistedTokens(world)|, FirstBatchSize(cfg, world), MaxRounds(cfg, world);
    && !r.ready && |r.campaign.evaluated| == Reach(latest, persisted, size, k)
    && (r.inventory <= r.campaign.evaluated <==> Fits(latest, persisted, size, k))
    && r.shortage == Some(if !Fits(latest, persisted, size, k) then DiscoveryArchitectureFalseShortage
                          else if latest + persisted == 0 then SourceVisibilityShortage else TrueMarketSupplyShortage)
  }

  lemma {:induction false} FullGrows(j: nat, k: nat, size: nat)
    requires j <= k
    ensures Full(j, size) <= Full(k, size)
    decreases k
  {
    if j < k {
      FullGrows(j, k - 1, size);
    }
  }

  lemma SplitCount(world: World, evaluated: set<string>)
    ensures |evaluated| == |evaluated * world.latestMints| + |evaluated - world.latestMints|
  {
    assert evaluated == evaluated * world.latestMints + (evaluated - world.latestMints);
  }

  /** From what was reached to the closed count. */
  lemma ReachedAtCap(world: World, size: nat, evaluated: set<string>, j: nat, k: nat)
    requires size >= 1 && j <= k && evaluated <= Mints(world.registry(0)) && Reached(world, size, evaluated, j)
    requires j == k || Mints(world.registry(0)) <= evaluated
    ensures var latest, persisted := |LatestTokens(world)|, |PersistedTokens(world)|;
            && latest + persisted == |Mints(world.registry(0))|
            && |evaluated| == Reach(latest, persisted, size, k)
            && (Mints(world.registry(0)) <= evaluated <==> Fits(latest, persisted, size, k))
  {
    var inventory := Mints(world.registry(0));
    SplitCount(world, inventory);
    SplitCount(world, evaluated);
    FullIsProduct(k, size);
    FullGrows(j, k, size);
    if |evaluated| == |inventory| {
      SubsetOfSameSize(evaluated, inventory);
    }
    if inventory <= evaluated {
      assert evaluated == inventory;
    }
  }

  lemma EndedTakenVerdict(cfg: Config, world: World, c: Campaign, stop: StopReason)
    requires FixedRegistry(world) && cfg.operationBudget > world.stageOperations && Undisturbed(cfg, world)
    requires EndedTaken(cfg, world, c, stop)
    ensures EndedAtCap(cfg, world, Concluded(cfg, world, c, stop))
  {
    var inventory := Mints(world.registry(0));
    assert world.registry(c.rounds + 1) == world.registry(0);
    ReachedAtCap(world, FirstBatchSize(cfg, world), c.evaluated, c.rounds, MaxRounds(cfg, world));
    QuietVerdict(cfg, world, c, stop, inventory);
  }

  lemma QuietVerdict(cfg: Config, world: World, c: Campaign, stop: StopReason, inventory: set<string>)
    requires cfg.operationBudget > world.stageOperations && Undisturbed(cfg, world) && NothingFound(c) && c.operations == world.stageOperations
    requires stop in {AllReachableCandidatesEvaluated, NoAdditionalUniqueCandidates} && (c.evaluated == {} ==> inventory <= c.evaluated)
    ensures FinalShortage(FactsAt(cfg, world, c, stop, inventory))
         == if !(inventory <= c.evaluated) then DiscoveryArchitectureFalseShortage
            else if c.evaluated == {} then SourceVisibilityShortage else TrueMarketSupplyShortage
  {
    var f := FactsAt(cfg, world, c, stop, inventory);
    DifferenceEmpty(inventory, c.evaluated);
    assert IsSourceFault(SourceUnavailable) && IsSourceFault(SourceRateLimitedOrStale) && IsSourceFault(ResponseMalformedOrPartial);
    LeftoverVerdict(f);
  }

  lemma LeftoverVerdict(f: Facts)
    requires f.StoppedShort() && WalkEnded(f) && f.eligible == 0 && !f.trackingBlocked && f.channelsUnavailable == 0
    requires f.sourceUnavailable == 0 && f.staleOrRateLimited == 0 && f.malformedOrPartial == 0
    requires f.operationsRemaining > 0 && f.TimeLeft() && (f.evaluated == 0 ==> f.unexplored == 0)
    ensures FinalShortage(f) == if f.unexplored > 0 then DiscoveryArchitectureFalseShortage
                                else if f.evaluated == 0 then SourceVisibilityShortage else TrueMarketSupplyShortage
  {
  }

  lemma CapFiresBehind(cfg: Config, world: World, door: FrontDoor, start: Reserve, floor: FloorTable)
    requires QuietSupply(cfg, world, floor) && QuietDoor(world, door, floor) && NothingToRevalidate(world, start)
    ensures SupplyBy(cfg, world, door, start, floor).Ok? && EndedAtCap(cfg, world, SupplyBy(cfg, world, door, start, floor).value)
  {
    OpenedEmpty(cfg, world);
    var w := Walk(Opened(cfg, world), floor, {});
    QuietWalk(cfg, world, door, w);
    var (c, stop) := Walked(cfg, world, door, w).value;
    WalkedConcludes(cfg, world, door, start, floor, c, stop);
    EndedTakenVerdict(cfg, world, c, stop);
  }

  /** Over tokens that need no market call, with any number of operations left: each round takes
      min(batch, operations left) tokens, a batch of one takes a token of each kind, and the round cap
      ends the walk with tokens unexplored exactly when they do not fit into the rounds it allows. The
      architecture is then blamed, and otherwise the market. */
  lemma CapFiresEarlyExactly(cfg: Config, world: World, start: Reserve, floor: FloorTable)
    requires QuietSupply(cfg, world, floor) && NothingToRevalidate(world, start)
    ensures SupplyOf(cfg, world, start, floor).Ok? && EndedAtCap(cfg, world, SupplyOf(cfg, world, start, floor).value)
  {
    DoorIsQuiet(cfg, world, floor);
    CapFiresBehind(cfg, world, DoorOf(cfg, world), start, floor);
  }

  // ---- Concrete campaigns ----

  const NOT_LISTED := SourceReply(Complete, None, [], None)

  /** A registry that never changes, and a market that knows none of its pools. */
  function FixedWorld(rows: seq<Row>, latestMints: set<string>): World {
    World(_ => rows, latestMints, (_, _) => 0, _ => Market((_, _) => NOT_LISTED, (_, _) => None), _ => true, _ => 0, _ => None, [], 0)
  }

  function UnconfirmedRow(mint: string): Row {
    Row(mint, "", "", "", 0)
  }

  lemma FourUnconfirmed(cfg: Config, world: World, rows: seq<Row>)
    requires rows == [UnconfirmedRow("a"), UnconfirmedRow("b"), UnconfirmedRow("d"), UnconfirmedRow("e")]
    requires cfg == Config("s", "c", 0, 1, 5, 1, None, false) && world == FixedWorld(rows, {})
    ensures QuietSupply(cfg, world, map[]) && LatestTokens(world) == {} && |PersistedTokens(world)| == |Mints(rows)| == 4
  {
    assert rows[0].mint == "a" && rows[1].mint == "b" && rows[2].mint == "d" && rows[3].mint == "e";
    RowMintCount(rows);
    assert PersistedTokens(world) == Mints(rows);
    assert BlockedMints(cfg, world, rows) == {};
  }

  /** Four unconfirmed tokens, batches of five and one operation: the cap of three rounds ends the
      campaign with a token unexplored. */
  lemma CapLeavesATokenUnexplored(cfg: Config, world: World)
    requires cfg == Config("s", "c", 0, 1, 5, 1, None, false)
    requires world == FixedWorld([UnconfirmedRow("a"), UnconfirmedRow("b"), UnconfirmedRow("d"), UnconfirmedRow("e")], {})
    ensures var r := SupplyOf(cfg, world, map[], map[]);
            r.Ok? && |r.value.campaign.evaluated| == 3 && r.value.shortage == Some(DiscoveryArchitectureFalseShortage)
  {
    FourUnconfirmed(cfg, world, world.registry(0));
    CapFiresEarlyExactly(cfg, world, map[], map[]);
  }

  predicate NoneBelow(floor: FloorTable) {
    forall m :: m in floor ==> floor[m].status != BelowSelectionFloor
  }

  ghost predicate NothingListed(market: Market) {
    forall m, p :: market.reply(m, p) == NOT_LISTED
  }

  lemma UnlistedRow(floor: FloorTable, row: Row, latestMints: set<string>, now: int, market: Market)
    requires IdentityConfirmed(row) && NoneBelow(floor) && NothingListed(market)
    ensures var x := EvaluateRow(floor, row, latestMints, now, market); Charged(x) == 1 && IsFruitless(x)
    ensures NoneBelow(FloorAfterRow(floor, row, now, market))
  {
    assert market.reply(row.mint, row.pool) == NOT_LISTED;
  }

  lemma {:induction false} UnlistedBatch(floor: FloorTable, rows: seq<Row>, latestMints: set<string>, now: int, market: Market)
    requires (forall r :: r in rows ==> IdentityConfirmed(r)) && NoneBelow(floor) && NothingListed(market)
    ensures var batch := Evaluated(floor, rows, latestMints, now, market);
            MarketCalls(batch) == |rows| && forall x :: x in batch ==> IsFruitless(x)
    ensures NoneBelow(FloorAfter(floor, rows, now, market))
    decreases |rows|
  {
    if rows != [] {
      var front, last := rows[..|rows| - 1], rows[|rows| - 1];
      UnlistedBatch(floor, front, latestMints, now, market);
      UnlistedRow(FloorAfter(floor, front, now, market), last, latestMints, now, market);
    }
  }

  /** A fixed registry of two confirmed tokens, one of them latest, that the market does not know. */
  ghost predicate TwoUnlisted(world: World) {
    && RegistryKeyed(world) && FixedRegistry(world) && NothingListed(world.market(1))
    && TwoPartitions(world.registry(1), world.latestMints, {}) && |Mints(world.registry(0))| == 2
    && forall r :: r in world.registry(1) ==> IdentityConfirmed(r)
  }

  lemma TwoRows(world: World, a: Row, b: Row)
    requires world == FixedWorld([a, b], {a.mint}) && IdentityConfirmed(a) && IdentityConfirmed(b)
    requires a.mint != b.mint && a.mint != "" && b.mint != ""
    ensures TwoUnlisted(world)
  {
    var rows := world.registry(1);
    assert rows[0] == a && rows[1] == b;
    assert Mints(rows) == {a.mint, b.mint};
  }

  /** The first batch of one calls the market for both tokens and finds nothing. */
  ghost predicate BothOffered(world: World, door: FrontDoor) {
    var batch := door.batch(map[], 1, 1, {});
    IsRoundBatch(world, 1, 1, {}, batch) && |batch| == MarketCalls(batch) == 2 && forall x :: x in batch ==> IsFruitless(x)
  }

  lemma DoorOffersBoth(cfg: Config, world: World)
    requires TwoUnlisted(world)
    ensures BothOffered(world, DoorOf(cfg, world))
  {
    var rows := RoundRows(cfg, world, 1, 1, {});
    DoorIsLawful(cfg, world);
    assert IsRoundBatch(world, 1, 1, {}, DoorOf(cfg, world).batch(map[], 1, 1, {}));
    BatchRows(world.registry(1), world.latestMints, RoundSeed(cfg.cycleSeed, 1), world.digest, 1, {});
    UnlistedBatch(map[], rows, world.latestMints, cfg.now, world.market(1));
  }

  /** Two candidates are all there is to take. */
  lemma BothTaken(world: World, size: nat, exclude: set<string>, batch: seq<Candidate>)
    requires FixedRegistry(world) && IsRoundBatch(world, 1, size, exclude, batch) && |batch| == 2 && |Mints(world.registry(0))| == 2
    ensures CandidateMints(batch) == Mints(world.registry(0))
  {
    BatchInInventory(world, 1, size, exclude, batch);
    CandidateMintCount(batch);
    SubsetOfSameSize(CandidateMints(batch), Mints(world.registry(0)));
  }

  /** Two market calls, and every token evaluated. */
  ghost predicate BothEvaluated(world: World, c: Campaign, e: Campaign) {
    NothingFound(e) && e.rounds == 1 && e.operations == c.operations + 2 && e.evaluated == Mints(world.registry(0))
  }

  lemma BothAdded(world: World, c: Campaign, batch: seq<Candidate>, e: Campaign)
    requires BatchAdded(c, batch, e) && c.rounds == 0 && c.evaluated == {}
    requires MarketCalls(batch) == 2 && CandidateMints(batch) == Mints(world.registry(0))
    ensures BothEvaluated(world, c, e)
  {
    assert c.evaluated + CandidateMints(batch) == CandidateMints(batch);
  }

  lemma OnlyRound(
    cfg: Config, world: World, door: FrontDoor, c: Campaign, batch: seq<Candidate>, r: Result<(Campaign, seq<Candidate>), Fault>)
    requires TwoUnlisted(world) && NothingFound(c) && c.evaluated == {} && c.rounds == 0
    requires BothOffered(world, door) && batch == door.batch(map[], 1, 1, {})
    requires cfg.evaluationBatchSize >= 1 && Remaining(cfg, c) == 1 && r == NextRound(cfg, world, door, map[], c, {}).0
    ensures r.Ok? && |r.value.1| == 2 && BothEvaluated(world, c, AdmitAll(r.value.0, r.value.1))
  {
    BothTaken(world, 1, {}, batch);
    FruitlessRound(world, c, 1, {}, batch, r);
    BothAdded(world, c, batch, AdmitAll(r.value.0, batch));
  }

  lemma OnlyAfterRound(cfg: Config, world: World, c: Campaign, e: Campaign, floor: FloorTable)
    requires BothEvaluated(world, c, e) && cfg.requiredCapacity >= 1
    ensures AfterRound(cfg, world, c, {}, e, 2, floor) == Stopped(e, AllReachableCandidatesEvaluated)
  {
    NothingLeft(Mints(world.registry(0)), e.evaluated);
  }

  lemma NoEarlyStop(cfg: Config, world: World, c: Campaign)
    requires cfg.evaluationBatchSize >= 1 && cfg.deadline.None? && Remaining(cfg, c) > 0
    requires c.rounds == 0 && c.evaluated == {} && Mints(world.registry(0)) != {}
    ensures EarlyStop(cfg, world, c, {}, MaxRounds(cfg, world)).None?
  {
    NothingLeft(Mints(world.registry(0)), {});
  }

  lemma OnlyPass(cfg: Config, world: World, door: FrontDoor, w: Walk, n: Next)
    requires TwoUnlisted(world) && BothOffered(world, door) && NothingFound(w.c) && w.c.evaluated == {} && w.c.rounds == 0 && w.floor == map[] && w.revalidate == {}
    requires cfg.evaluationBatchSize >= 1 && cfg.requiredCapacity >= 1 && cfg.deadline.None? && Remaining(cfg, w.c) == 1
    requires n == WalkOnce(cfg, world, door, w)
    ensures n.Stopped? && n.stop == AllReachableCandidatesEvaluated && BothEvaluated(world, w.c, n.c)
  {
    var next := NextRound(cfg, world, door, w.floor, w.c, {});
    OnlyRound(cfg, world, door, w.c, door.batch(map[], 1, 1, {}), next.0);
    OnlyAfterRound(cfg, world, w.c, AdmitAll(next.0.value.0, next.0.value.1), next.1);
    NoEarlyStop(cfg, world, w.c);
  }

  lemma OnlyWalk(cfg: Config, world: World, door: FrontDoor, w: Walk) returns (c: Campaign)
    requires TwoUnlisted(world) && BothOffered(world, door) && NothingFound(w.c) && w.c.evaluated == {} && w.c.rounds == 0 && w.floor == map[] && w.revalidate == {}
    requires cfg.evaluationBatchSize >= 1 && cfg.requiredCapacity >= 1 && cfg.deadline.None? && Remaining(cfg, w.c) == 1
    ensures Walked(cfg, world, door, w) == Ok((c, AllReachableCandidatesEvaluated)) && BothEvaluated(world, w.c, c)
  {
    var n := WalkOnce(cfg, world, door, w);
    OnlyPass(cfg, world, door, w, n);
    c := n.c;
  }

  lemma OnlyVerdict(cfg: Config, world: World, c: Campaign)
    requires FixedRegistry(world) && |Mints(world.registry(0))| == 2 && NothingFound(c) && c.evaluated == Mints(world.registry(0))
    requires cfg.evaluationBatchSize >= 1 && cfg.requiredCapacity >= 1 && cfg.deadline.None? && Remaining(cfg, c) == 0
    ensures var r := Concluded(cfg, world, c, AllReachableCandidatesEvaluated);
            && r.campaign == c && r.shortage == Some(TrueMarketSupplyShortage)
            && ClassifyShortage(FactsAt(cfg, world, c, AllReachableCandidatesEvaluated, r.inventory)) == BudgetExhaustion
  {
    assert world.registry(c.rounds + 1) == world.registry(0);
    DifferenceEmpty(Mints(world.registry(0)), c.evaluated);
  }

  /** A configuration with one operation left and no other limit. */
  ghost predicate OneLeft(cfg: Config, world: World) {
    && Trim(cfg.cycleSeed) != "" && cfg.evaluationBatchSize >= 1 && cfg.requiredCapacity >= 1 && cfg.deadline.None?
    && !cfg.trackingPrecheck && world.governedFailures == [] && cfg.operationBudget == world.stageOperations + 1
  }

  /** One operation past the budget; the verdict blames the market, the first classifier the budget. */
  ghost predicate EndedPastBudget(cfg: Config, world: World, r: SupplyResult)
    requires OneLeft(cfg, world)
  {
    && r.campaign.operations == cfg.operationBudget + 1 && r.shortage == Some(TrueMarketSupplyShortage)
    && ClassifyShortage(FactsAt(cfg, world, r.campaign, r.stop, r.inventory)) == BudgetExhaustion
  }

  lemma OneOperationBehind(cfg: Config, world: World, door: FrontDoor)
    requires TwoUnlisted(world) && BothOffered(world, door) && OneLeft(cfg, world)
    ensures var r := SupplyBy(cfg, world, door, map[], map[]); r.Ok? && EndedPastBudget(cfg, world, r.value)
  {
    OpenedEmpty(cfg, world);
    var c := OnlyWalk(cfg, world, door, Walk(Opened(cfg, world), map[], {}));
    WalkedConcludes(cfg, world, door, map[], map[], c, AllReachableCandidatesEvaluated);
    OnlyVerdict(cfg, world, c);
  }

  /** Two confirmed tokens that the market does not know, one latest and one persisted, and one
      operation left: the batch of one takes both, the campaign ends one operation past its budget,
      and its verdict blames the market although the first classifier blames the budget. */
  lemma OneOperationForTwoTokens(cfg: Config, world: World)
    requires TwoUnlisted(world) && OneLeft(cfg, world)
    ensures var r := SupplyOf(cfg, world, map[], map[]); r.Ok? && EndedPastBudget(cfg, world, r.value)
  {
    DoorOffersBoth(cfg, world);
    OneOperationBehind(cfg, world, DoorOf(cfg, world));
  }

  /** One such campaign. */
  lemma ACampaignPastItsBudget(cfg: Config, world: World)
    requires cfg == Config("s", "c", 0, 1, 1, 1, None, false)
    requires world == FixedWorld([Row("a", "p", PUMPSWAP_MARKET_PREFIX + "p", GRADUATED_LIFECYCLE, 0),
                                  Row("b", "q", PUMPSWAP_MARKET_PREFIX + "q", GRADUATED_LIFECYCLE, 0)], {"a"})
    ensures var r := SupplyOf(cfg, world, map[], map[]); r.Ok? && r.value.campaign.operations == 2 && cfg.operationBudget == 1
  {
    var rows := world.registry(0);
    assert rows[0].mint == "a" && rows[1].mint == "b" && Trim(cfg.cycleSeed) != "";
    TwoRows(world, rows[0], rows[1]);
    OneOperationForTwoTokens(cfg, world);
  }
}
