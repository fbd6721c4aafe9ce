/** What a whole campaign says about the market's own answers: every candidate is traced back to the
    reply that judged it, and the verdict is stated over those replies. */
module CampaignEvidence {
  import opened Common
  import opened RefreshBatch
  import opened LiquidityFrontDoor
  import opened ShortageVerdict
  import opened EligibleSupply
  import opened SupplyCampaign

  // ---- Every candidate is judged by one reply ----

  /** The candidate is its row judged on the given floor table, with the market's answers of round k. */
  predicate JudgedIn(cfg: Config, world: World, floor: FloorTable, k: nat, x: Candidate) {
    x == EvaluateRow(floor, x.row, world.latestMints, cfg.now, world.market(k))
  }

  /** Every candidate was judged in the round noted for it. */
  ghost predicate AllJudged(cfg: Config, world: World, floor: FloorTable, c: Campaign, rounds: seq<nat>) {
    && |rounds| == |c.candidates|
    && forall i :: 0 <= i < |rounds| ==> 1 <= rounds[i] <= c.rounds && JudgedIn(cfg, world, floor, rounds[i], c.candidates[i])
  }

  /** Tokens that were not evaluated yet have the floor state they started with. */
  ghost predicate FloorKept(floor: FloorTable, now: FloorTable, evaluated: set<string>) {
    forall m :: m !in evaluated ==> SameAt(floor, now, m)
  }

  /** A round judges each of its tokens alone, and leaves the floor state of every other token. */
  ghost predicate JudgesAlone(cfg: Config, world: World, door: FrontDoor) {
    forall floor: FloorTable, round: nat, size: nat, exclude: set<string> :: size > 0 ==> RoundJudges(cfg, world, door, floor, round, size, exclude)
  }

  ghost predicate RoundJudges(cfg: Config, world: World, door: FrontDoor, floor: FloorTable, round: nat, size: nat, exclude: set<string>) {
    var batch := door.batch(floor, round, size, exclude);
    && (forall x :: x in batch ==> JudgedIn(cfg, world, floor, round, x))
    && FloorKept(floor, door.after(floor, round, size, exclude), CandidateMints(batch))
  }

  lemma DoorJudgesAlone(cfg: Config, world: World)
    requires RegistryKeyed(world)
    ensures JudgesAlone(cfg, world, DoorOf(cfg, world))
  {
    forall floor: FloorTable, round: nat, size: nat, exclude: set<string> | size > 0
      ensures RoundJudges(cfg, world, DoorOf(cfg, world), floor, round, size, exclude)
    {
      var rows := RoundRows(cfg, world, round, size, exclude);
      BatchRows(world.registry(round), world.latestMints, RoundSeed(cfg.cycleSeed, round), world.digest, size, exclude);
      RowsJudged(cfg, world, floor, round, rows);
    }
  }

  lemma RowsJudged(cfg: Config, world: World, floor: FloorTable, round: nat, rows: seq<Row>)
    requires DistinctBy(rows, MintOf)
    ensures var batch := Evaluated(floor, rows, world.latestMints, cfg.now, world.market(round));
            && (forall x :: x in batch ==> JudgedIn(cfg, world, floor, round, x))
            && FloorKept(floor, FloorAfter(floor, rows, cfg.now, world.market(round)), CandidateMints(batch))
  {
    var batch := Evaluated(floor, rows, world.latestMints, cfg.now, world.market(round));
    EvaluatedApart(floor, rows, world.latestMints, cfg.now, world.market(round));
    forall m | m !in CandidateMints(batch) ensures SameAt(floor, FloorAfter(floor, rows, cfg.now, world.market(round)), m) {
      forall r | r in rows ensures r.mint != m {
        var i :| 0 <= i < |rows| && rows[i] == r;
        assert batch[i] in batch;
      }
      FloorElsewhere(floor, rows, cfg.now, world.market(round), m);
    }
  }

  /** Judging reads the floor table only at the row's own mint. */
  lemma JudgedOnStart(cfg: Config, world: World, start: FloorTable, floor: FloorTable, k: nat, x: Candidate)
    requires JudgedIn(cfg, world, floor, k, x) && SameAt(start, floor, x.row.mint)
    ensures JudgedIn(cfg, world, start, k, x)
  {
  }

  // ---- Over the rounds of a campaign ----

  ghost predicate WalkJudged(cfg: Config, world: World, start: FloorTable, c: Campaign, floor: FloorTable, rounds: seq<nat>) {
    AllJudged(cfg, world, start, c, rounds) && FloorKept(start, floor, c.evaluated)
  }

  lemma RoundJudged(
    cfg: Config, world: World, start: FloorTable, c: Campaign, floor: FloorTable, rounds: seq<nat>, batch: seq<Candidate>,
    after: FloorTable, e: Campaign)
    returns (more: seq<nat>)
    requires WalkJudged(cfg, world, start, c, floor, rounds)
    requires forall x :: x in batch ==> JudgedIn(cfg, world, floor, c.rounds + 1, x) && x.row.mint !in c.evaluated
    requires FloorKept(floor, after, CandidateMints(batch))
    requires e.candidates == c.candidates + batch && e.rounds == c.rounds + 1 && e.evaluated == c.evaluated + CandidateMints(batch)
    ensures WalkJudged(cfg, world, start, e, after, more)
  {
    more := rounds + seq(|batch|, _ => c.rounds + 1);
    forall i | 0 <= i < |more| ensures 1 <= more[i] <= e.rounds && JudgedIn(cfg, world, start, more[i], e.candidates[i]) {
      if i >= |rounds| {
        var x := batch[i - |rounds|];
        assert x in batch;
        JudgedOnStart(cfg, world, start, floor, c.rounds + 1, x);
      }
    }
    forall m | m !in e.evaluated ensures SameAt(start, after, m) {
      assert SameAt(start, floor, m) && SameAt(floor, after, m);
    }
  }

  lemma CountedJudged(
    cfg: Config, world: World, start: FloorTable, c: Campaign, floor: FloorTable, rounds: seq<nat>, size: nat, exclude: set<string>,
    batch: seq<Candidate>, after: FloorTable, d: Campaign)
    returns (more: seq<nat>)
    requires RegistryKeyed(world) && IsRoundBatch(world, c.rounds + 1, size, exclude, batch) && c.evaluated <= exclude && Counted(c, d, batch)
    requires WalkJudged(cfg, world, start, c, floor, rounds)
    requires forall x :: x in batch ==> JudgedIn(cfg, world, floor, c.rounds + 1, x)
    requires FloorKept(floor, after, CandidateMints(batch))
    ensures WalkJudged(cfg, world, start, AdmitAll(d, batch), after, more)
  {
    RoundRecords(world, c, d, size, exclude, batch);
    more := RoundJudged(cfg, world, start, c, floor, rounds, batch, after, AdmitAll(d, batch));
  }

  lemma NextJudged(
    cfg: Config, world: World, door: FrontDoor, start: FloorTable, c: Campaign, floor: FloorTable, rounds: seq<nat>, focus: set<string>,
    next: (Result<(Campaign, seq<Candidate>), Fault>, FloorTable))
    returns (more: seq<nat>)
    requires RegistryKeyed(world) && Lawful(world, door) && JudgesAlone(cfg, world, door) && cfg.evaluationBatchSize >= 1
    requires Remaining(cfg, c) > 0 && WalkJudged(cfg, world, start, c, floor, rounds)
    requires next == NextRound(cfg, world, door, floor, c, focus) && next.0.Ok?
    ensures WalkJudged(cfg, world, start, AdmitAll(next.0.value.0, next.0.value.1), next.1, more)
  {
    var size, exclude := BatchSizeOf(cfg, c), Excluding(Mints(world.registry(0)), c, focus);
    var batch := door.batch(floor, c.rounds + 1, size, exclude);
    assert RoundJudges(cfg, world, door, floor, c.rounds + 1, size, exclude);
    RoundCountedIs(world, c, batch);
    more := CountedJudged(cfg, world, start, c, floor, rounds, size, exclude, batch, next.1, next.0.value.0);
  }

  lemma OnceJudged(cfg: Config, world: World, door: FrontDoor, start: FloorTable, w: Walk, rounds: seq<nat>, n: Next) returns (more: seq<nat>)
    requires RegistryKeyed(world) && Lawful(world, door) && JudgesAlone(cfg, world, door) && cfg.evaluationBatchSize >= 1
    requires WalkJudged(cfg, world, start, w.c, w.floor, rounds) && n == WalkOnce(cfg, world, door, w)
    ensures n.GoOn? ==> WalkJudged(cfg, world, start, n.walk.c, n.walk.floor, more)
    ensures n.Stopped? ==> AllJudged(cfg, world, start, n.c, more)
  {
    var focus := Focus(w.c, w.revalidate);
    more := rounds;
    if EarlyStop(cfg, world, w.c, focus, MaxRounds(cfg, world)).None? {
      var next := NextRound(cfg, world, door, w.floor, w.c, focus);
      if next.0.Ok? {
        more := NextJudged(cfg, world, door, start, w.c, w.floor, rounds, focus, next);
      }
    }
  }

  lemma {:induction false} WalkedJudged(cfg: Config, world: World, door: FrontDoor, start: FloorTable, w: Walk, rounds: seq<nat>) returns (more: seq<nat>)
    requires RegistryKeyed(world) && Lawful(world, door) && JudgesAlone(cfg, world, door) && cfg.evaluationBatchSize >= 1
    requires WalkJudged(cfg, world, start, w.c, w.floor, rounds)
    ensures var r := Walked(cfg, world, door, w); r.Ok? ==> AllJudged(cfg, world, start, r.value.0, more)
    decreases MaxRounds(cfg, world) - w.c.rounds
  {
    var n := WalkOnce(cfg, world, door, w);
    more := OnceJudged(cfg, world, door, start, w, rounds, n);
    if n.GoOn? {
      more := WalkedJudged(cfg, world, door, start, n.walk, more);
    }
  }

  /** Every candidate of a campaign is its row, judged on the floor table the campaign found and on the
      market's answer in one of its rounds. */
  lemma CandidatesAreJudged(cfg: Config, world: World, start: Reserve, floor: FloorTable, result: SupplyResult) returns (rounds: seq<nat>)
    requires RegistryKeyed(world) && SupplyOf(cfg, world, start, floor) == Ok(result)
    ensures AllJudged(cfg, world, floor, result.campaign, rounds)
  {
    DoorIsLawful(cfg, world);
    DoorJudgesAlone(cfg, world);
    rounds := CandidatesAreJudgedBehind(cfg, world, DoorOf(cfg, world), start, floor, result);
  }

  lemma CandidatesAreJudgedBehind(cfg: Config, world: World, door: FrontDoor, start: Reserve, floor: FloorTable, result: SupplyResult)
    returns (rounds: seq<nat>)
    requires RegistryKeyed(world) && Lawful(world, door) && JudgesAlone(cfg, world, door)
    requires SupplyBy(cfg, world, door, start, floor) == Ok(result)
    ensures AllJudged(cfg, world, floor, result.campaign, rounds)
  {
    rounds := WalkedJudged(cfg, world, door, floor, Walk(Opened(cfg, world), floor, LiveMints(start) * Mints(world.registry(0))), []);
  }

  // ---- The verdict over the replies ----

  /** A reply that is no evidence: not answered, or its single exact pair carries no usable amount. */
  ghost predicate NoEvidence(reply: SourceReply, mint: string, pool: string) {
    !Answered(reply) || UnusableExactPair(reply, mint, pool)
  }

  /** The reply that judged candidate i. */
  function ReplyTo(world: World, c: Campaign, rounds: seq<nat>, i: nat): SourceReply
    requires i < |c.candidates| == |rounds|
  {
    world.market(rounds[i]).reply(c.candidates[i].row.mint, c.candidates[i].row.pool)
  }

  /** Candidate i needed a market call, and its reply has the form that goes with this outcome. */
  ghost predicate Got(cfg: Config, world: World, floor: FloorTable, c: Campaign, rounds: seq<nat>, i: nat, outcome: OutcomeCategory)
    requires i < |c.candidates| == |rounds|
  {
    && NeedsMarketCall(floor, c.candidates[i].row, cfg.now)
    && OutcomeFits(ReplyTo(world, c, rounds, i), c.candidates[i].row.mint, c.candidates[i].row.pool, outcome)
  }

  ghost predicate SomeGot(cfg: Config, world: World, floor: FloorTable, c: Campaign, rounds: seq<nat>, outcome: OutcomeCategory)
    requires |c.candidates| == |rounds|
  {
    exists i: nat :: i < |rounds| && Got(cfg, world, floor, c, rounds, i, outcome)
  }

  /** No candidate that needed a market call was left without evidence. */
  ghost predicate EvidenceForAll(cfg: Config, world: World, floor: FloorTable, c: Campaign, rounds: seq<nat>)
    requires |c.candidates| == |rounds|
  {
    forall i: nat :: i < |rounds| && NeedsMarketCall(floor, c.candidates[i].row, cfg.now) ==>
                       !NoEvidence(ReplyTo(world, c, rounds, i), c.candidates[i].row.mint, c.candidates[i].row.pool)
  }

  lemma RowOutcome(floor: FloorTable, row: Row, latestMints: set<string>, now: int, market: Market, outcome: OutcomeCategory)
    requires outcome !in {IdentityUnconfirmed, HistoricalBelowFloorCooldown}
    ensures EvaluateRow(floor, row, latestMints, now, market).evidence.outcome == outcome
            <==> NeedsMarketCall(floor, row, now) && OutcomeFits(market.reply(row.mint, row.pool), row.mint, row.pool, outcome)
  {
    OutcomeExactly(market.reply(row.mint, row.pool), row.mint, row.pool);
  }

  lemma FaultIsNoEvidence(reply: SourceReply, mint: string, pool: string)
    ensures NoEvidence(reply, mint, pool) <==> exists outcome :: IsSourceFault(outcome) && OutcomeFits(reply, mint, pool, outcome)
  {
    OutcomeExactly(reply, mint, pool);
    var outcome := EnrichPoolLiquidity(reply, mint, pool).outcome;
    assert OutcomeFits(reply, mint, pool, outcome);
  }

  /** A candidate has a market outcome exactly when it needed a call and got such a reply. */
  lemma CandidateOutcome(
    cfg: Config, world: World, floor: FloorTable, c: Campaign, rounds: seq<nat>, i: nat, outcome: OutcomeCategory)
    requires AllJudged(cfg, world, floor, c, rounds) && i < |rounds| && outcome !in {IdentityUnconfirmed, HistoricalBelowFloorCooldown}
    ensures c.candidates[i].evidence.outcome == outcome <==> Got(cfg, world, floor, c, rounds, i, outcome)
  {
    RowOutcome(floor, c.candidates[i].row, world.latestMints, cfg.now, world.market(rounds[i]), outcome);
  }

  lemma OutcomeSeen(cfg: Config, world: World, floor: FloorTable, c: Campaign, rounds: seq<nat>, outcome: OutcomeCategory)
    requires AllJudged(cfg, world, floor, c, rounds) && OutcomesCounted(c) && outcome !in {IdentityUnconfirmed, HistoricalBelowFloorCooldown}
    ensures Get(c.outcomes, outcome) > 0 <==> SomeGot(cfg, world, floor, c, rounds, outcome)
  {
    CountOutcomePositive(c.candidates, outcome);
    forall i: nat | i < |rounds|
      ensures c.candidates[i].evidence.outcome == outcome <==> Got(cfg, world, floor, c, rounds, i, outcome)
    {
      CandidateOutcome(cfg, world, floor, c, rounds, i, outcome);
    }
  }

  lemma NoFaultExactly(cfg: Config, world: World, floor: FloorTable, c: Campaign, rounds: seq<nat>)
    requires AllJudged(cfg, world, floor, c, rounds)
    ensures NoSourceFault(c) <==> EvidenceForAll(cfg, world, floor, c, rounds)
  {
    forall i: nat | i < |rounds|
      ensures IsSourceFault(c.candidates[i].evidence.outcome)
              <==> && NeedsMarketCall(floor, c.candidates[i].row, cfg.now)
                   && NoEvidence(ReplyTo(world, c, rounds, i), c.candidates[i].row.mint, c.candidates[i].row.pool)
    {
      CandidateFault(cfg, world, floor, c, rounds, i);
    }
    if !NoSourceFault(c) {
      var x :| x in c.candidates && IsSourceFault(x.evidence.outcome);
      var i: nat :| i < |c.candidates| && c.candidates[i] == x;
    }
  }

  lemma CandidateFault(cfg: Config, world: World, floor: FloorTable, c: Campaign, rounds: seq<nat>, i: nat)
    requires AllJudged(cfg, world, floor, c, rounds) && i < |rounds|
    ensures IsSourceFault(c.candidates[i].evidence.outcome)
            <==> && NeedsMarketCall(floor, c.candidates[i].row, cfg.now)
                 && NoEvidence(ReplyTo(world, c, rounds, i), c.candidates[i].row.mint, c.candidates[i].row.pool)
  {
    var row := c.candidates[i].row;
    FaultIsNoEvidence(ReplyTo(world, c, rounds, i), row.mint, row.pool);
    OutcomeExactly(ReplyTo(world, c, rounds, i), row.mint, row.pool);
  }

  /** Honest exhaustion over the replies themselves: a campaign that ends short blames the market exactly
      when every token of the inventory was evaluated, there was one, every reply that was needed is an
      answer whose single exact pair, if it has one, carries an amount, no governed failure was recorded,
      tracking held no token back, and neither budget nor deadline stopped the walk. */
  lemma HonestOverReplies(
    cfg: Config, world: World, start: Reserve, floor: FloorTable, result: SupplyResult, reserve: Reserve, rounds: seq<nat>)
    requires CampaignEnds(cfg, world, start, result, reserve) && !result.ready && AllJudged(cfg, world, floor, result.campaign, rounds)
    ensures var c := result.campaign;
            result.shortage == Some(TrueMarketSupplyShortage)
            <==> && result.inventory <= c.evaluated && c.evaluated != {}
                 && EvidenceForAll(cfg, world, floor, c, rounds) && world.governedFailures == [] && c.blocked == {}
                 && result.stop in {AllReachableCandidatesEvaluated, NoAdditionalUniqueCandidates}
  {
    HonestExhaustion(cfg, world, start, result, reserve);
    NoFaultExactly(cfg, world, floor, result.campaign, rounds);
  }

  /** A short campaign is named after the worst reply it got: one unavailable source makes it a source
      failure, otherwise one limited or stale reply makes it stale evidence, otherwise one malformed or
      partial reply makes it a visibility shortage. */
  lemma ShortageNamesTheReplies(
    cfg: Config, world: World, start: Reserve, floor: FloorTable, result: SupplyResult, reserve: Reserve, rounds: seq<nat>)
    requires CampaignEnds(cfg, world, start, result, reserve) && !result.ready && AllJudged(cfg, world, floor, result.campaign, rounds)
    ensures var unavailable := SomeGot(cfg, world, floor, result.campaign, rounds, SourceUnavailable);
            var stale := SomeGot(cfg, world, floor, result.campaign, rounds, SourceRateLimitedOrStale);
            var malformed := SomeGot(cfg, world, floor, result.campaign, rounds, ResponseMalformedOrPartial);
            && (unavailable ==> result.shortage == Some(SourceAvailabilityFailure))
            && (!unavailable && stale ==> result.shortage == Some(StaleEvidenceShortage))
            && (!unavailable && !stale && malformed ==> result.shortage == Some(SourceVisibilityShortage))
  {
    var c := result.campaign;
    OutcomeSeen(cfg, world, floor, c, rounds, SourceUnavailable);
    OutcomeSeen(cfg, world, floor, c, rounds, SourceRateLimitedOrStale);
    OutcomeSeen(cfg, world, floor, c, rounds, ResponseMalformedOrPartial);
    CountsNameShortage(FactsAt(cfg, world, c, result.stop, result.inventory));
  }

  lemma CountsNameShortage(f: Facts)
    ensures f.sourceUnavailable > 0 ==> FinalShortage(f) == SourceAvailabilityFailure
    ensures f.sourceUnavailable == 0 && f.staleOrRateLimited > 0 ==> FinalShortage(f) == StaleEvidenceShortage
    ensures f.sourceUnavailable == 0 && f.staleOrRateLimited == 0 && f.malformedOrPartial > 0 ==> FinalShortage(f) == SourceVisibilityShortage
  {
  }
}
