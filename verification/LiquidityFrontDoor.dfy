/** Exact-pool liquidity evidence, the $3,000 floor, the below-floor cooldown, and the per-row loop
    of one evaluation batch. */
module LiquidityFrontDoor {
  import opened Common
  import opened RefreshBatch

  const SELECTION_FLOOR_USD := 3000.0
  const BELOW_FLOOR_COOLDOWN_SECONDS := 3600
  const GRADUATED_LIFECYCLE := "PUMPSWAP_GRADUATED_CONFIRMED"
  const PUMPSWAP_MARKET_PREFIX := "solana-mainnet:pumpswap:"

  // ---- Provider payloads ----

  datatype RawLiquidity = Absent | NotANumber | NonFinite | Usd(value: real)

  datatype PairItem =
    | NotAnObject
    | Pair(chain: string, pairAddress: string, tokenMint: string, liquidity: RawLiquidity)

  datatype SourceStatus = Complete | Partial | Failed | Stale | Conflicting

  /** What the text of a failure type says, as far as the classification looks at it. */
  datatype FailureType = FailureType(mentionsRateLimitOrStale: bool, mentionsMalformed: bool)

  datatype SourceReply = SourceReply(
    status: SourceStatus, failure: Option<FailureType>, pairs: seq<PairItem>, failureId: Option<nat>)

  // ---- Evidence ----

  datatype LiquidityStatus = Proven | BelowSelectionFloor | Unproven

  datatype OutcomeCategory =
    | ExactAboveFloor
    | ExactBelowFloor
    | SourceUnavailable
    | SourceRateLimitedOrStale
    | ResponseMalformedOrPartial
    | ExactPairUnavailableOrMismatch
    | HistoricalBelowFloorCooldown
    | IdentityUnconfirmed

  datatype Reason =
    | ExactPool
    | AtOrAboveFloor
    | BelowFloorReason
    | NoExactPair
    | AmbiguousExactPair
    | MintMismatch
    | PoolMismatchTokenLevel
    | LiquidityMissing
    | LiquidityMalformed
    | LiquidityNonFinite
    | LiquidityNegative
    | StaleSource
    | SourceFault
    | BelowFloorCooldown
    | IdentityOrGraduationUnconfirmed

  datatype Evidence = Evidence(
    status: LiquidityStatus, usd: Option<real>, reason: Reason, outcome: OutcomeCategory, failureId: Option<nat>)

  predicate IsExact(p: PairItem, mint: string, pool: string) {
    p.Pair? && p.chain == "solana" && p.pairAddress == pool && p.tokenMint == mint
  }

  function ExactPairs(pairs: seq<PairItem>, mint: string, pool: string): (r: seq<PairItem>)
    ensures forall p :: p in r ==> IsExact(p, mint, pool)
  {
    if pairs == [] then []
    else
      ExactPairs(pairs[..|pairs| - 1], mint, pool)
      + if IsExact(pairs[|pairs| - 1], mint, pool) then [pairs[|pairs| - 1]] else []
  }

  /** Fail-closed reading of the single exact pair; a missing value is never turned into zero. */
  function ExtractExactPairLiquidity(pairs: seq<PairItem>, mint: string, pool: string): (Option<real>, Reason) {
    var exact := ExactPairs(pairs, mint, pool);
    if exact == [] then
      var poolPresent := exists i :: 0 <= i < |pairs| && pairs[i].Pair? && pairs[i].pairAddress == pool;
      var mintPresent := exists i :: 0 <= i < |pairs| && pairs[i].Pair? && pairs[i].tokenMint == mint;
      if poolPresent && !mintPresent then (None, MintMismatch)
      else if mintPresent && !poolPresent then (None, PoolMismatchTokenLevel)
      else (None, NoExactPair)
    else if |exact| > 1 then (None, AmbiguousExactPair)
    else
      assert exact[0] in exact;
      match exact[0].liquidity
      case Absent => (None, LiquidityMissing)
      case NotANumber => (None, LiquidityMalformed)
      case NonFinite => (None, LiquidityNonFinite)
      case Usd(value) => if value < 0.0 then (None, LiquidityNegative) else (Some(value), ExactPool)
  }

  function UnprovenCategory(reason: Reason, status: SourceStatus, failure: Option<FailureType>): OutcomeCategory {
    if reason == IdentityOrGraduationUnconfirmed then IdentityUnconfirmed
    else if reason in {NoExactPair, AmbiguousExactPair, MintMismatch, PoolMismatchTokenLevel} then ExactPairUnavailableOrMismatch
    else if status == Stale || (failure.Some? && failure.value.mentionsRateLimitOrStale) then SourceRateLimitedOrStale
    else if status == Partial
         || reason in {LiquidityMissing, LiquidityMalformed, LiquidityNonFinite, LiquidityNegative}
         || (failure.Some? && failure.value.mentionsMalformed) then ResponseMalformedOrPartial
    else SourceUnavailable
  }

  function ClassifyLiquidity(value: Option<real>, reason: Reason, reply: SourceReply): Evidence {
    if value.None? then
      Evidence(Unproven, None, reason, UnprovenCategory(reason, reply.status, reply.failure), reply.failureId)
    else if value.value < SELECTION_FLOOR_USD then
      Evidence(BelowSelectionFloor, value, BelowFloorReason, ExactBelowFloor, reply.failureId)
    else
      Evidence(Proven, value, AtOrAboveFloor, ExactAboveFloor, reply.failureId)
  }

  /** One governed exact-pool request, classified. */
  function EnrichPoolLiquidity(reply: SourceReply, mint: string, pool: string): Evidence {
    if reply.status == Stale then
      Evidence(Unproven, None, StaleSource, SourceRateLimitedOrStale, reply.failureId)
    else if reply.status != Complete || reply.failure.Some? then
      Evidence(Unproven, None, SourceFault, UnprovenCategory(SourceFault, reply.status, reply.failure), reply.failureId)
    else
      var (value, reason) := ExtractExactPairLiquidity(reply.pairs, mint, pool);
      ClassifyLiquidity(value, reason, reply)
  }

  // ---- When evidence proves the floor ----

  /** Position i is the only pair on Solana with this exact mint and pool. */
  ghost predicate OnlyExactPair(pairs: seq<PairItem>, mint: string, pool: string, i: nat) {
    && i < |pairs| && pairs[i].Pair? && pairs[i].chain == "solana" && pairs[i].pairAddress == pool && pairs[i].tokenMint == mint
    && forall k :: 0 <= k < |pairs| && k != i ==> !IsExact(pairs[k], mint, pool)
  }

  lemma {:induction false} ExactPairsFound(pairs: seq<PairItem>, mint: string, pool: string)
    ensures ExactPairs(pairs, mint, pool) == [] <==> forall k :: 0 <= k < |pairs| ==> !IsExact(pairs[k], mint, pool)
    ensures |ExactPairs(pairs, mint, pool)| == 1 ==>
              exists i: nat :: OnlyExactPair(pairs, mint, pool, i) && ExactPairs(pairs, mint, pool)[0] == pairs[i]
    ensures forall i: nat :: OnlyExactPair(pairs, mint, pool, i) ==> ExactPairs(pairs, mint, pool) == [pairs[i]]
  {
    if pairs != [] {
      var front, last := pairs[..|pairs| - 1], pairs[|pairs| - 1];
      ExactPairsFound(front, mint, pool);
      var exact := ExactPairs(pairs, mint, pool);
      assert forall k :: 0 <= k < |front| ==> front[k] == pairs[k];
      if |exact| == 1 {
        if IsExact(last, mint, pool) {
          assert OnlyExactPair(pairs, mint, pool, |front|);
        } else {
          var i: nat :| OnlyExactPair(front, mint, pool, i) && exact[0] == front[i];
          assert OnlyExactPair(pairs, mint, pool, i);
        }
      }
      forall i: nat | OnlyExactPair(pairs, mint, pool, i) ensures exact == [pairs[i]] {
        if i < |front| {
          assert OnlyExactPair(front, mint, pool, i);
        }
      }
    }
  }

  /** The reply is a clean, complete response whose single exact pair carries value v. */
  ghost predicate CarriesExactValue(reply: SourceReply, mint: string, pool: string, v: real) {
    && reply.status == Complete && reply.failure.None? && v >= 0.0
    && exists i: nat :: OnlyExactPair(reply.pairs, mint, pool, i) && reply.pairs[i].liquidity == Usd(v)
  }

  /** Liquidity is proven exactly when one exact pair of a clean response carries a finite value
      at or above the floor; it is below the floor exactly when that value is under it; in every
      other case nothing is proven and no amount is reported. */
  lemma ProvenExactly(reply: SourceReply, mint: string, pool: string, v: real)
    ensures var e := EnrichPoolLiquidity(reply, mint, pool);
            && (e.status != Unproven && e.usd == Some(v) <==> CarriesExactValue(reply, mint, pool, v))
            && (e.status == Proven && e.usd == Some(v) <==> CarriesExactValue(reply, mint, pool, v) && v >= SELECTION_FLOOR_USD)
            && (e.status == Unproven <==> e.usd == None)
  {
    var exact := ExactPairs(reply.pairs, mint, pool);
    ExactPairsFound(reply.pairs, mint, pool);
    if |exact| == 1 {
      var i: nat :| OnlyExactPair(reply.pairs, mint, pool, i) && exact[0] == reply.pairs[i];
    }
  }

  // ---- What each outcome says about the reply ----

  predicate Answered(reply: SourceReply) {
    reply.status == Complete && reply.failure.None?
  }

  predicate SaysLimitedOrStale(reply: SourceReply) {
    reply.status == Stale || (reply.failure.Some? && reply.failure.value.mentionsRateLimitOrStale)
  }

  predicate SaysBroken(reply: SourceReply) {
    reply.status == Partial || (reply.failure.Some? && reply.failure.value.mentionsMalformed)
  }

  predicate Unusable(liquidity: RawLiquidity) {
    match liquidity
    case Usd(value) => value < 0.0
    case _ => true
  }

  /** The single exact pair carries no usable amount. */
  ghost predicate UnusableExactPair(reply: SourceReply, mint: string, pool: string) {
    exists i: nat :: OnlyExactPair(reply.pairs, mint, pool, i) && Unusable(reply.pairs[i].liquidity)
  }

  ghost predicate NoSinglePair(reply: SourceReply, mint: string, pool: string) {
    forall i: nat :: !OnlyExactPair(reply.pairs, mint, pool, i)
  }

  /** What a reply must look like for an outcome; the last two never come from a reply. */
  ghost predicate OutcomeFits(reply: SourceReply, mint: string, pool: string, outcome: OutcomeCategory) {
    match outcome
    case ExactAboveFloor => exists v :: CarriesExactValue(reply, mint, pool, v) && v >= 3000.0
    case ExactBelowFloor => exists v :: CarriesExactValue(reply, mint, pool, v) && v < 3000.0
    case ExactPairUnavailableOrMismatch => Answered(reply) && NoSinglePair(reply, mint, pool)
    case SourceRateLimitedOrStale => !Answered(reply) && SaysLimitedOrStale(reply)
    case ResponseMalformedOrPartial =>
      if Answered(reply) then UnusableExactPair(reply, mint, pool) else SaysBroken(reply) && !SaysLimitedOrStale(reply)
    case SourceUnavailable => !Answered(reply) && !SaysLimitedOrStale(reply) && !SaysBroken(reply)
    case HistoricalBelowFloorCooldown => false
    case IdentityUnconfirmed => false
  }

  ghost predicate OutcomesFit(reply: SourceReply, mint: string, pool: string) {
    forall outcome :: EnrichPoolLiquidity(reply, mint, pool).outcome == outcome <==> OutcomeFits(reply, mint, pool, outcome)
  }

  /** Each outcome, both directions, from the reply alone. */
  lemma OutcomeExactly(reply: SourceReply, mint: string, pool: string)
    ensures OutcomesFit(reply, mint, pool) && EnrichPoolLiquidity(reply, mint, pool).failureId == reply.failureId
  {
    if !Answered(reply) {
      UnansweredOutcome(reply, mint, pool);
    } else if i: nat :| OnlyExactPair(reply.pairs, mint, pool, i) {
      OnePairOutcome(reply, mint, pool, i);
    } else {
      NoPairOutcome(reply, mint, pool);
    }
  }

  lemma UnansweredOutcome(reply: SourceReply, mint: string, pool: string)
    requires !Answered(reply)
    ensures OutcomesFit(reply, mint, pool)
  {
  }

  lemma NoPairOutcome(reply: SourceReply, mint: string, pool: string)
    requires Answered(reply) && NoSinglePair(reply, mint, pool)
    ensures OutcomesFit(reply, mint, pool)
  {
    ExactPairsFound(reply.pairs, mint, pool);
  }

  lemma OnePairOutcome(reply: SourceReply, mint: string, pool: string, i: nat)
    requires Answered(reply) && OnlyExactPair(reply.pairs, mint, pool, i)
    ensures OutcomesFit(reply, mint, pool)
  {
    ExactPairsFound(reply.pairs, mint, pool);
    var liquidity := reply.pairs[i].liquidity;
    assert !NoSinglePair(reply, mint, pool);
    assert forall j: nat :: OnlyExactPair(reply.pairs, mint, pool, j) ==> j == i;
    assert UnusableExactPair(reply, mint, pool) <==> Unusable(liquidity);
    assert forall v :: CarriesExactValue(reply, mint, pool, v) <==> liquidity == Usd(v) && v >= 0.0;
  }

  predicate PoolPresent(reply: SourceReply, pool: string) {
    exists i :: 0 <= i < |reply.pairs| && reply.pairs[i].Pair? && reply.pairs[i].pairAddress == pool
  }

  predicate MintPresent(reply: SourceReply, mint: string) {
    exists i :: 0 <= i < |reply.pairs| && reply.pairs[i].Pair? && reply.pairs[i].tokenMint == mint
  }

  predicate TwoExact(reply: SourceReply, mint: string, pool: string) {
    exists i, j :: 0 <= i < j < |reply.pairs| && IsExact(reply.pairs[i], mint, pool) && IsExact(reply.pairs[j], mint, pool)
  }

  ghost predicate SingleWith(reply: SourceReply, mint: string, pool: string, liquidity: RawLiquidity -> bool) {
    exists i: nat :: OnlyExactPair(reply.pairs, mint, pool, i) && liquidity(reply.pairs[i].liquidity)
  }

  /** What a reply must look like for the reason that is recorded with an outcome. */
  ghost predicate ReasonFits(reply: SourceReply, mint: string, pool: string, reason: Reason) {
    match reason
    case StaleSource => reply.status == Stale
    case SourceFault => !Answered(reply) && reply.status != Stale
    case MintMismatch => Answered(reply) && PoolPresent(reply, pool) && !MintPresent(reply, mint)
    case PoolMismatchTokenLevel => Answered(reply) && MintPresent(reply, mint) && !PoolPresent(reply, pool)
    case AmbiguousExactPair => Answered(reply) && TwoExact(reply, mint, pool)
    case NoExactPair =>
      && Answered(reply) && NoSinglePair(reply, mint, pool) && !TwoExact(reply, mint, pool)
      && (PoolPresent(reply, pool) <==> MintPresent(reply, mint))
    case LiquidityMissing => Answered(reply) && SingleWith(reply, mint, pool, (l: RawLiquidity) => l == Absent)
    case LiquidityMalformed => Answered(reply) && SingleWith(reply, mint, pool, (l: RawLiquidity) => l == NotANumber)
    case LiquidityNonFinite => Answered(reply) && SingleWith(reply, mint, pool, (l: RawLiquidity) => l == NonFinite)
    case LiquidityNegative => Answered(reply) && SingleWith(reply, mint, pool, (l: RawLiquidity) => l.Usd? && l.value < 0.0)
    case BelowFloorReason => Answered(reply) && SingleWith(reply, mint, pool, (l: RawLiquidity) => l.Usd? && 0.0 <= l.value < 3000.0)
    case AtOrAboveFloor => Answered(reply) && SingleWith(reply, mint, pool, (l: RawLiquidity) => l.Usd? && l.value >= 3000.0)
    case _ => false
  }

  ghost predicate ReasonsFit(reply: SourceReply, mint: string, pool: string) {
    forall reason :: EnrichPoolLiquidity(reply, mint, pool).reason == reason <==> ReasonFits(reply, mint, pool, reason)
  }

  /** Each recorded reason, both directions, from the reply alone. */
  lemma ReasonExactly(reply: SourceReply, mint: string, pool: string)
    ensures ReasonsFit(reply, mint, pool)
  {
    if !Answered(reply) {
      UnansweredReason(reply, mint, pool);
    } else if i: nat :| OnlyExactPair(reply.pairs, mint, pool, i) {
      OnePairReason(reply, mint, pool, i);
    } else {
      NoPairReason(reply, mint, pool);
    }
  }

  lemma UnansweredReason(reply: SourceReply, mint: string, pool: string)
    requires !Answered(reply)
    ensures ReasonsFit(reply, mint, pool)
  {
  }

  lemma OnePairReason(reply: SourceReply, mint: string, pool: string, i: nat)
    requires Answered(reply) && OnlyExactPair(reply.pairs, mint, pool, i)
    ensures ReasonsFit(reply, mint, pool)
  {
    ExactPairsFound(reply.pairs, mint, pool);
    assert forall j: nat :: OnlyExactPair(reply.pairs, mint, pool, j) ==> j == i;
    assert PoolPresent(reply, pool) && MintPresent(reply, mint) && !TwoExact(reply, mint, pool);
  }

  lemma NoPairReason(reply: SourceReply, mint: string, pool: string)
    requires Answered(reply) && NoSinglePair(reply, mint, pool)
    ensures ReasonsFit(reply, mint, pool)
  {
    NoneOrTwo(reply, mint, pool);
    if ExactPairs(reply.pairs, mint, pool) == [] {
      NoneExactReason(reply, mint, pool);
    } else {
      AmbiguousReason(reply, mint, pool);
    }
  }

  /** Without a single exact pair there is none, or there are two. */
  lemma NoneOrTwo(reply: SourceReply, mint: string, pool: string)
    requires NoSinglePair(reply, mint, pool)
    ensures |ExactPairs(reply.pairs, mint, pool)| != 1
    ensures ExactPairs(reply.pairs, mint, pool) == [] <==> !TwoExact(reply, mint, pool)
  {
    ExactPairsFound(reply.pairs, mint, pool);
    if k: nat :| k < |reply.pairs| && IsExact(reply.pairs[k], mint, pool) {
      assert !OnlyExactPair(reply.pairs, mint, pool, k);
      var j :| 0 <= j < |reply.pairs| && j != k && IsExact(reply.pairs[j], mint, pool);
      assert j < k || k < j;
    }
  }

  lemma NoneExactReason(reply: SourceReply, mint: string, pool: string)
    requires Answered(reply) && NoSinglePair(reply, mint, pool) && !TwoExact(reply, mint, pool) && ExactPairs(reply.pairs, mint, pool) == []
    ensures ReasonsFit(reply, mint, pool)
  {
  }

  lemma AmbiguousReason(reply: SourceReply, mint: string, pool: string)
    requires Answered(reply) && NoSinglePair(reply, mint, pool) && TwoExact(reply, mint, pool) && |ExactPairs(reply.pairs, mint, pool)| > 1
    ensures ReasonsFit(reply, mint, pool)
  {
    assert PoolPresent(reply, pool) && MintPresent(reply, mint);
  }

  // ---- Durable floor state ----

  datatype FloorState = FloorState(pool: string, status: LiquidityStatus, usd: Option<real>, checkedAt: int, cooldownUntil: Option<int>)

  type FloorTable = map<string, FloorState>

  predicate CooldownActive(floor: FloorTable, mint: string, now: int) {
    && mint in floor
    && floor[mint].status == BelowSelectionFloor
    && floor[mint].cooldownUntil.Some?
    && now < floor[mint].cooldownUntil.value
  }

  function RecordFloor(floor: FloorTable, mint: string, pool: string, e: Evidence, now: int): FloorTable {
    floor[mint := FloorState(pool, e.status, e.usd, now,
                             if e.status == BelowSelectionFloor then Some(now + BELOW_FLOOR_COOLDOWN_SECONDS) else None)]
  }

  // ---- One evaluation batch ----

  datatype Rejection =
    | RejectedIdentity
    | RejectedCooldown
    | RejectedBelowFloor
    | RejectedUnproven
    | RejectedSelection(reason: string)

  datatype Candidate = Candidate(row: Row, latest: bool, evidence: Evidence, rejection: Option<Rejection>)
  {
    predicate Eligible() {
      rejection.None?
    }
  }

  /** The market answers and the cross-batch selection gate, as they stand during one batch. */
  datatype Market = Market(reply: (string, string) -> SourceReply, selectionGate: (string, string) -> Option<string>)

  predicate IdentityConfirmed(row: Row) {
    row.lifecycle == GRADUATED_LIFECYCLE && row.market == PUMPSWAP_MARKET_PREFIX + row.pool
  }

  /** A row is charged one market call unless its identity or its cooldown already decides. */
  predicate NeedsMarketCall(floor: FloorTable, row: Row, now: int) {
    IdentityConfirmed(row) && !CooldownActive(floor, row.mint, now)
  }

  function EvaluateRow(floor: FloorTable, row: Row, latestMints: set<string>, now: int, market: Market): Candidate {
    var latest := row.mint in latestMints;
    if !IdentityConfirmed(row) then
      Candidate(row, latest, Evidence(Unproven, None, IdentityOrGraduationUnconfirmed, IdentityUnconfirmed, None), Some(RejectedIdentity))
    else if CooldownActive(floor, row.mint, now) then
      Candidate(row, latest,
                Evidence(BelowSelectionFloor, floor[row.mint].usd, BelowFloorCooldown, HistoricalBelowFloorCooldown, None),
                Some(RejectedCooldown))
    else
      var e := EnrichPoolLiquidity(market.reply(row.mint, row.pool), row.mint, row.pool);
      var rejection :=
        match e.status
        case BelowSelectionFloor => Some(RejectedBelowFloor)
        case Unproven => Some(RejectedUnproven)
        case Proven =>
          var gate := market.selectionGate(row.mint, row.pool);
          if gate.Some? then Some(RejectedSelection(gate.value)) else None;
      Candidate(row, latest, e, rejection)
  }

  function FloorAfterRow(floor: FloorTable, row: Row, now: int, market: Market): FloorTable {
    if NeedsMarketCall(floor, row, now) then
      RecordFloor(floor, row.mint, row.pool, EnrichPoolLiquidity(market.reply(row.mint, row.pool), row.mint, row.pool), now)
    else floor
  }

  function FloorAfter(floor: FloorTable, rows: seq<Row>, now: int, market: Market): FloorTable
    decreases |rows|
  {
    if rows == [] then floor
    else FloorAfterRow(FloorAfter(floor, rows[..|rows| - 1], now, market), rows[|rows| - 1], now, market)
  }

  function Evaluated(floor: FloorTable, rows: seq<Row>, latestMints: set<string>, now: int, market: Market): (r: seq<Candidate>)
    ensures |r| == |rows|
    ensures forall i :: 0 <= i < |rows| ==> r[i].row == rows[i]
    decreases |rows|
  {
    if rows == [] then []
    else
      var front := rows[..|rows| - 1];
      Evaluated(floor, front, latestMints, now, market)
      + [EvaluateRow(FloorAfter(floor, front, now, market), rows[|rows| - 1], latestMints, now, market)]
  }

  function Charged(c: Candidate): nat {
    if c.evidence.outcome in {IdentityUnconfirmed, HistoricalBelowFloorCooldown} then 0 else 1
  }

  /** Market calls made for a batch: one per candidate whose evidence came from the market. */
  function MarketCalls(candidates: seq<Candidate>): (n: nat)
    ensures n <= |candidates|
  {
    if candidates == [] then 0 else MarketCalls(candidates[..|candidates| - 1]) + Charged(candidates[|candidates| - 1])
  }

  lemma ChargedExactlyForMarketCalls(floor: FloorTable, row: Row, latestMints: set<string>, now: int, market: Market)
    ensures Charged(EvaluateRow(floor, row, latestMints, now, market)) == if NeedsMarketCall(floor, row, now) then 1 else 0
  {
  }

  /** What a candidate says about its row, given the floor table that was found and the market's answers. */
  ghost predicate Judged(floor: FloorTable, row: Row, latestMints: set<string>, now: int, market: Market, c: Candidate) {
    var reply := market.reply(row.mint, row.pool);
    && c.row == row && (c.latest <==> row.mint in latestMints)
    && (c.evidence.outcome == IdentityUnconfirmed
        <==> !(row.lifecycle == "PUMPSWAP_GRADUATED_CONFIRMED" && row.market == "solana-mainnet:pumpswap:" + row.pool))
    && (c.evidence.outcome == HistoricalBelowFloorCooldown <==> IdentityConfirmed(row) && CooldownActive(floor, row.mint, now))
    && (if NeedsMarketCall(floor, row, now)
        then OutcomeFits(reply, row.mint, row.pool, c.evidence.outcome) && c.evidence.failureId == reply.failureId
        else c.evidence.failureId == None)
    && RejectedFor(row, market, c.evidence.outcome, c.rejection)
  }

  /** The rejection that goes with an outcome; only a value at the floor leaves the decision to the selection gate. */
  ghost predicate RejectedFor(row: Row, market: Market, outcome: OutcomeCategory, rejection: Option<Rejection>) {
    match outcome
    case IdentityUnconfirmed => rejection == Some(RejectedIdentity)
    case HistoricalBelowFloorCooldown => rejection == Some(RejectedCooldown)
    case ExactBelowFloor => rejection == Some(RejectedBelowFloor)
    case ExactAboveFloor =>
      var gate := market.selectionGate(row.mint, row.pool);
      rejection == if gate.Some? then Some(RejectedSelection(gate.value)) else None
    case _ => rejection == Some(RejectedUnproven)
  }

  lemma RowIsJudged(floor: FloorTable, row: Row, latestMints: set<string>, now: int, market: Market)
    ensures Judged(floor, row, latestMints, now, market, EvaluateRow(floor, row, latestMints, now, market))
  {
    var reply := market.reply(row.mint, row.pool);
    OutcomeExactly(reply, row.mint, row.pool);
    var e := EnrichPoolLiquidity(reply, row.mint, row.pool);
    StatusOfOutcome(reply, row.mint, row.pool);
  }

  lemma StatusOfOutcome(reply: SourceReply, mint: string, pool: string)
    ensures var e := EnrichPoolLiquidity(reply, mint, pool);
            && (e.status == Proven <==> e.outcome == ExactAboveFloor) && (e.status == BelowSelectionFloor <==> e.outcome == ExactBelowFloor)
            && e.outcome != IdentityUnconfirmed && e.outcome != HistoricalBelowFloorCooldown
  {
  }

  /** Both tables say the same of a mint. */
  predicate SameAt(f: FloorTable, g: FloorTable, mint: string) {
    (mint in f <==> mint in g) && (mint in f ==> f[mint] == g[mint])
  }

  lemma {:induction false} FloorElsewhere(floor: FloorTable, rows: seq<Row>, now: int, market: Market, mint: string)
    requires forall r :: r in rows ==> r.mint != mint
    ensures SameAt(floor, FloorAfter(floor, rows, now, market), mint)
    decreases |rows|
  {
    if rows != [] {
      FloorElsewhere(floor, rows[..|rows| - 1], now, market, mint);
    }
  }

  /** Rows of different mints are judged as if each were evaluated alone, on the floor table the batch found. */
  lemma {:induction false} EvaluatedApart(floor: FloorTable, rows: seq<Row>, latestMints: set<string>, now: int, market: Market)
    requires DistinctBy(rows, MintOf)
    ensures forall i :: 0 <= i < |rows| ==>
              Evaluated(floor, rows, latestMints, now, market)[i] == EvaluateRow(floor, rows[i], latestMints, now, market)
    decreases |rows|
  {
    if rows != [] {
      var front, last := rows[..|rows| - 1], rows[|rows| - 1];
      EvaluatedApart(floor, front, latestMints, now, market);
      forall r | r in front ensures r.mint != last.mint {
        var i :| 0 <= i < |front| && front[i] == r;
        assert MintOf(rows[i]) != MintOf(rows[|rows| - 1]);
      }
      FloorElsewhere(floor, front, now, market, last.mint);
    }
  }

  ghost predicate JudgedAt(
    floor: FloorTable, rows: seq<Row>, latestMints: set<string>, now: int, market: Market, candidates: seq<Candidate>, i: nat)
    requires i < |rows| == |candidates|
  {
    Judged(FloorAfter(floor, rows[..i], now, market), rows[i], latestMints, now, market, candidates[i])
  }

  /** Each row is judged on the floor table that the rows before it left. */
  ghost predicate BatchJudged(floor: FloorTable, rows: seq<Row>, latestMints: set<string>, now: int, market: Market, candidates: seq<Candidate>) {
    |candidates| == |rows| && forall i: nat :: i < |rows| ==> JudgedAt(floor, rows, latestMints, now, market, candidates, i)
  }

  lemma {:induction false} BatchIsJudged(floor: FloorTable, rows: seq<Row>, latestMints: set<string>, now: int, market: Market)
    ensures BatchJudged(floor, rows, latestMints, now, market, Evaluated(floor, rows, latestMints, now, market))
    decreases |rows|
  {
    if rows != [] {
      var front := rows[..|rows| - 1];
      var candidates, before := Evaluated(floor, rows, latestMints, now, market), Evaluated(floor, front, latestMints, now, market);
      BatchIsJudged(floor, front, latestMints, now, market);
      RowIsJudged(FloorAfter(floor, front, now, market), rows[|rows| - 1], latestMints, now, market);
      forall i: nat | i < |front| ensures JudgedAt(floor, rows, latestMints, now, market, candidates, i) {
        assert front[..i] == rows[..i] && JudgedAt(floor, front, latestMints, now, market, before, i);
      }
    }
  }

  class MarketFloor {
    var state: FloorTable

    constructor ()
      ensures state == map[]
    {
      state := map[];
    }

    /** One row: identity, cooldown, then one market call and its record. */
    method EvaluateOne(row: Row, latestMints: set<string>, now: int, market: Market) returns (candidate: Candidate, marketCalls: nat)
      modifies this
      ensures candidate == EvaluateRow(old(state), row, latestMints, now, market)
      ensures state == FloorAfterRow(old(state), row, now, market)
      ensures marketCalls == Charged(candidate) == if NeedsMarketCall(old(state), row, now) then 1 else 0
      ensures Judged(old(state), row, latestMints, now, market, candidate)
    {
      RowIsJudged(state, row, latestMints, now, market);
      ChargedExactlyForMarketCalls(state, row, latestMints, now, market);
      if !IdentityConfirmed(row) {
        return Candidate(row, row.mint in latestMints,
                         Evidence(Unproven, None, IdentityOrGraduationUnconfirmed, IdentityUnconfirmed, None), Some(RejectedIdentity)), 0;
      }
      if CooldownActive(state, row.mint, now) {
        return Candidate(row, row.mint in latestMints,
                         Evidence(BelowSelectionFloor, state[row.mint].usd, BelowFloorCooldown, HistoricalBelowFloorCooldown, None),
                         Some(RejectedCooldown)), 0;
      }
      var evidence := EnrichPoolLiquidity(market.reply(row.mint, row.pool), row.mint, row.pool);
      var rejection: Option<Rejection> := None;
      if evidence.status == BelowSelectionFloor {
        rejection := Some(RejectedBelowFloor);
      } else if evidence.status != Proven {
        rejection := Some(RejectedUnproven);
      } else {
        var gate := market.selectionGate(row.mint, row.pool);
        if gate.Some? {
          rejection := Some(RejectedSelection(gate.value));
        }
      }
      state := RecordFloor(state, row.mint, row.pool, evidence, now);
      return Candidate(row, row.mint in latestMints, evidence, rejection), 1;
    }

    /** The row loop of one batch. */
    method EvaluateBatch(rows: seq<Row>, latestMints: set<string>, now: int, market: Market)
      returns (candidates: seq<Candidate>, marketCalls: nat)
      modifies this
      ensures candidates == Evaluated(old(state), rows, latestMints, now, market)
      ensures state == FloorAfter(old(state), rows, now, market)
      ensures marketCalls == MarketCalls(candidates)
      ensures BatchJudged(old(state), rows, latestMints, now, market, candidates)
    {
      candidates, marketCalls := [], 0;
      for i := 0 to |rows|
        invariant candidates == Evaluated(old(state), rows[..i], latestMints, now, market)
        invariant state == FloorAfter(old(state), rows[..i], now, market)
        invariant marketCalls == MarketCalls(candidates)
      {
        assert rows[..i + 1][..i] == rows[..i];
        ghost var before := candidates;
        var candidate, calls := EvaluateOne(rows[i], latestMints, now, market);
        marketCalls := marketCalls + calls;
        candidates := candidates + [candidate];
        assert candidates[..|candidates| - 1] == before;
      }
      assert rows[..|rows|] == rows;
      BatchIsJudged(old(state), rows, latestMints, now, market);
    }
  }

  // ---- What an eligible candidate guarantees ----

  ghost predicate MeetsFloor(row: Row, usd: Option<real>, market: Market) {
    && IdentityConfirmed(row)
    && usd.Some? && usd.value >= SELECTION_FLOOR_USD
    && CarriesExactValue(market.reply(row.mint, row.pool), row.mint, row.pool, usd.value)
    && market.selectionGate(row.mint, row.pool).None?
  }

  /** Admission is categorical: a row is eligible exactly when it is a confirmed graduate, not in
      cooldown, its own pool answers with at least the floor now, and the selection gate is open. */
  lemma EligibleExactly(floor: FloorTable, row: Row, latestMints: set<string>, now: int, market: Market)
    ensures var c := EvaluateRow(floor, row, latestMints, now, market);
            && (c.Eligible() <==> !CooldownActive(floor, row.mint, now) && MeetsFloor(row, c.evidence.usd, market))
            && (c.Eligible() ==> c.evidence.status == Proven && c.evidence.outcome == ExactAboveFloor)
  {
    var e := EnrichPoolLiquidity(market.reply(row.mint, row.pool), row.mint, row.pool);
    if e.usd.Some? {
      ProvenExactly(market.reply(row.mint, row.pool), row.mint, row.pool, e.usd.value);
    }
    ProvenExactly(market.reply(row.mint, row.pool), row.mint, row.pool, 0.0);
  }

  lemma {:induction false} EvaluatedMembers(floor: FloorTable, rows: seq<Row>, latestMints: set<string>, now: int, market: Market, c: Candidate)
    requires c in Evaluated(floor, rows, latestMints, now, market)
    ensures c.row in rows
    ensures exists f: FloorTable :: c == EvaluateRow(f, c.row, latestMints, now, market)
    decreases |rows|
  {
    var front := rows[..|rows| - 1];
    if c in Evaluated(floor, front, latestMints, now, market) {
      EvaluatedMembers(floor, front, latestMints, now, market, c);
    } else {
      assert c == EvaluateRow(FloorAfter(floor, front, now, market), rows[|rows| - 1], latestMints, now, market);
    }
  }

  /** Every eligible candidate of a batch meets the floor on its own pool, in this batch. */
  lemma BatchEligibility(floor: FloorTable, rows: seq<Row>, latestMints: set<string>, now: int, market: Market, c: Candidate)
    requires c in Evaluated(floor, rows, latestMints, now, market) && c.Eligible()
    ensures MeetsFloor(c.row, c.evidence.usd, market)
  {
    EvaluatedMembers(floor, rows, latestMints, now, market, c);
    var f: FloorTable :| c == EvaluateRow(f, c.row, latestMints, now, market);
    EligibleExactly(f, c.row, latestMints, now, market);
  }

  // ---- The cooldown over whole runs ----

  /** One row visited at one instant, in any batch of any campaign. */
  datatype Visit = Visit(row: Row, now: int, market: Market)

  function FloorAfterVisits(floor: FloorTable, visits: seq<Visit>): FloorTable
    decreases |visits|
  {
    if visits == [] then floor
    else
      var v := visits[|visits| - 1];
      FloorAfterRow(FloorAfterVisits(floor, visits[..|visits| - 1]), v.row, v.now, v.market)
  }

  predicate CallsMarket(floor: FloorTable, visits: seq<Visit>, i: nat)
    requires i < |visits|
  {
    NeedsMarketCall(FloorAfterVisits(floor, visits[..i]), visits[i].row, visits[i].now)
  }

  predicate FindsBelowFloor(v: Visit) {
    EnrichPoolLiquidity(v.market.reply(v.row.mint, v.row.pool), v.row.mint, v.row.pool).status == BelowSelectionFloor
  }

  lemma {:induction false} FloorUntouched(floor: FloorTable, visits: seq<Visit>, i: nat, j: nat, mint: string)
    requires i <= j <= |visits|
    requires forall k :: i <= k < j && visits[k].row.mint == mint ==> !CallsMarket(floor, visits, k)
    ensures var a, b := FloorAfterVisits(floor, visits[..i]), FloorAfterVisits(floor, visits[..j]);
            (mint in a <==> mint in b) && (mint in a ==> a[mint] == b[mint])
    decreases j
  {
    if i < j {
      FloorUntouched(floor, visits, i, j - 1, mint);
      assert visits[..j][..j - 1] == visits[..j - 1];
      assert visits[j - 1].row.mint == mint ==> !CallsMarket(floor, visits, j - 1);
    }
  }

  /** When a mint is measured again, counted from its last measurement: at once unless that found it
      below the floor, and then exactly from the full hour on. */
  lemma MeasuredAgainExactly(floor: FloorTable, visits: seq<Visit>, i: nat, j: nat)
    requires i < j < |visits| && visits[i].row.mint == visits[j].row.mint && CallsMarket(floor, visits, i)
    requires forall k :: i < k < j && visits[k].row.mint == visits[j].row.mint ==> !CallsMarket(floor, visits, k)
    ensures CallsMarket(floor, visits, j)
            <==> IdentityConfirmed(visits[j].row) && (FindsBelowFloor(visits[i]) ==> visits[j].now >= visits[i].now + 3600)
  {
    assert visits[..i + 1][..i] == visits[..i];
    FloorUntouched(floor, visits, i + 1, j, visits[j].row.mint);
  }

  /** With a clock that never runs backwards, a mint measured below the floor is not measured
      again until a full hour later, across every batch and campaign. */
  lemma {:induction false} BelowFloorIsNotRecheckedWithinAnHour(floor: FloorTable, visits: seq<Visit>, i: nat, j: nat)
    requires i < j < |visits|
    requires forall a, b :: 0 <= a <= b < |visits| ==> visits[a].now <= visits[b].now
    requires visits[i].row.mint == visits[j].row.mint
    requires CallsMarket(floor, visits, i) && FindsBelowFloor(visits[i]) && CallsMarket(floor, visits, j)
    ensures visits[j].now >= visits[i].now + 3600
    decreases j
  {
    var mint := visits[i].row.mint;
    if k :| i < k < j && visits[k].row.mint == mint && CallsMarket(floor, visits, k) {
      BelowFloorIsNotRecheckedWithinAnHour(floor, visits, i, k);
      assert visits[k].now <= visits[j].now;
    } else {
      assert visits[..i + 1][..i] == visits[..i];
      FloorUntouched(floor, visits, i + 1, j, mint);
    }
  }
}
