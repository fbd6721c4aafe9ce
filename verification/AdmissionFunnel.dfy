/** The eleven-stage admission funnel of frozen candidate acquisition: exact-pool identity first,
    then one categorical gate per stage, stopping at the first failure. */
module AdmissionFunnel {
  import opened Common
  import opened Ordering

  const SPL_TOKEN_PROGRAM := "TokenkegQfeZyiNwAJbNbGKPFXCWuBvf9Ss623VQ5DA"
  const TOKEN_2022_PROGRAM := "TokenzQdBNbLqP5VEhdkAS6EPFLC1PHnBqCXEpPxuEb"
  const SUPPORTED_TOKEN_PROGRAMS: set<string> := {SPL_TOKEN_PROGRAM, TOKEN_2022_PROGRAM}
  const WRAPPED_SOL := "So11111111111111111111111111111111111111112"
  const USDC := "EPjFWdd5AufqSSqeM2qN1xzybapC8G4wEGGkZwyTDt1v"
  const ALLOWED_QUOTE_MINTS: set<string> := {WRAPPED_SOL, USDC}
  const PUMP_IDL_SHA256 := "b90bc471327f671449271d5d1d42354d1fae6f5a06502f5834459a3108138e49"
  const PUMPSWAP_IDL_SHA256 := "6b5c7ec4e5ef9742fa99dc57b0d75b1031b379bba02a7e1b3c5a4cad68d77e56"

  datatype Stage =
    | ChainMintValid | TokenProgramValid | IdentityAvailable | PoolQuoteValid | MarketFresh | AgeValid
    | HolderAcceptable | SafetyAcceptable | LiquidityTradeabilityValid | RouteTradeabilityValid | LineageValid

  const STAGES: seq<Stage> :=
    [ChainMintValid, TokenProgramValid, IdentityAvailable, PoolQuoteValid, MarketFresh, AgeValid,
     HolderAcceptable, SafetyAcceptable, LiquidityTradeabilityValid, RouteTradeabilityValid, LineageValid]

  // ---- Observations ----

  /** A JSON value, compared by its canonical text. */
  datatype Value = Text(text: string) | Number(value: int) | Flag(on: bool) | Json(canonical: string)

  /** The facts whose key starts with "pump". */
  datatype PumpKey =
    | OriginSignature | OriginContractHash
    | MigrationSignature | MigrationContractHash
    | SwapAccountHash | SwapContractHash | SwapIndex
    | CurveAddress | CurveAccountHash | CurveContractHash | CurveComplete
    | MigrationBranch | MigrationFailureFamily | MigrationFailureReason
    | OtherPump(key: string)

  datatype MintEvidence = MintEvidence(target: string, response: Option<string>)

  datatype Facts = Facts(
    status: map<Stage, string>,
    mintEvidence: Option<MintEvidence>,
    mintFailureReason: string,
    poolTarget: Option<string>,
    poolFailureReason: string,
    pump: map<PumpKey, Value>)

  /** A normalized observation: identity texts are present or absent, never blank. */
  datatype Observation = Observation(
    mint: Option<string>, pool: Option<string>, poolProgram: Option<string>, baseMint: Option<string>, quoteMint: Option<string>,
    tokenProgram: Option<string>, lineageClaim: Option<string>, expiresAt: int, sourceStale: bool, facts: Facts)

  datatype Lineage = GraduationConfirmed | OriginConfirmed | NonPumpPoolConfirmed | UnknownOrigin | ConflictingLineage | UnsupportedLineage

  datatype IdentityStatus = IdentityConflict | IdentityMerged | IdentityIncomplete

  datatype Outcome = Pass | Fail | NotReached

  datatype StageResult = StageResult(stage: Stage, outcome: Outcome, reason: string)

  datatype Gate = Gate(passed: bool, reason: string)

  datatype Candidate = Candidate(
    mint: string, pool: Option<string>, poolProgram: Option<string>, baseMint: Option<string>, quoteMint: Option<string>,
    tokenProgram: Option<string>, lineage: Lineage, identity: IdentityStatus, stages: seq<StageResult>, expiresAt: int)
  {
    predicate Admitted() {
      forall i :: 0 <= i < |stages| ==> stages[i].outcome != Fail
    }
  }

  // ---- Sets of observed texts ----

  type Getter = Observation -> Option<string>

  function Seen(group: seq<Observation>, get: Getter): (r: set<string>)
    ensures forall v :: v in r <==> exists i :: 0 <= i < |group| && get(group[i]) == Some(v)
  {
    if group == [] then {}
    else
      var last := get(group[|group| - 1]);
      Seen(group[..|group| - 1], get) + if last.Some? then {last.value} else {}
  }

  /** The least text seen, if any: the head of the sorted list. */
  function Least(group: seq<Observation>, get: Getter): (r: Option<string>)
    ensures r.None? <==> Seen(group, get) == {}
    ensures r.Some? ==> r.value in Seen(group, get)
  {
    if group == [] then None
    else
      var front, last := Least(group[..|group| - 1], get), get(group[|group| - 1]);
      if last.None? then front
      else if front.Some? && StrLe(front.value, last.value) then front
      else last
  }

  function MintOf(o: Observation): Option<string> { o.mint }

  function PoolOf(o: Observation): Option<string> { o.pool }

  /** Program, base and quote belong to a pool relationship: observations without a pool do not speak. */
  function ProgramOf(o: Observation): Option<string> { if o.pool.Some? then o.poolProgram else None }

  function BaseOf(o: Observation): Option<string> { if o.pool.Some? then o.baseMint else None }

  function QuoteOf(o: Observation): Option<string> { if o.pool.Some? then o.quoteMint else None }

  function TokenProgramOf(o: Observation): Option<string> { o.tokenProgram }

  function GroupOf(observations: seq<Observation>, mint: string): (r: seq<Observation>)
    ensures forall o :: o in r <==> o in observations && o.mint == Some(mint)
  {
    if observations == [] then []
    else
      GroupOf(observations[..|observations| - 1], mint)
      + if observations[|observations| - 1].mint == Some(mint) then [observations[|observations| - 1]] else []
  }

  /** The mints that reference a pool, over all observations of the execution. */
  function PoolMints(observations: seq<Observation>, pool: string): (r: set<string>)
    ensures forall m :: m in r <==> exists i :: 0 <= i < |observations| && observations[i].mint == Some(m) && observations[i].pool == Some(pool)
  {
    if observations == [] then {}
    else
      var last := observations[|observations| - 1];
      PoolMints(observations[..|observations| - 1], pool) + if last.mint.Some? && last.pool == Some(pool) then {last.mint.value} else {}
  }

  function CrossMintPools(observations: seq<Observation>): set<string> {
    set pool | pool in Seen(observations, PoolOf) && |PoolMints(observations, pool)| > 1
  }

  // ---- Gates ----

  function KeyName(stage: Stage): string {
    match stage
    case ChainMintValid => "MINT_STATUS"
    case TokenProgramValid => "TOKEN_PROGRAM_STATUS"
    case IdentityAvailable => "TRACKING_STATUS"
    case PoolQuoteValid => "POOL_STATUS"
    case MarketFresh => "MARKET_STATUS"
    case AgeValid => "AGE_STATUS"
    case HolderAcceptable => "HOLDER_STATUS"
    case SafetyAcceptable => "SAFETY_STATUS"
    case LiquidityTradeabilityValid => "LIQUIDITY_STATUS"
    case RouteTradeabilityValid => "TRADEABILITY_STATUS"
    case LineageValid => "LINEAGE_STATUS"
  }

  function StatusValues(group: seq<Observation>, stage: Stage): set<string> {
    Seen(group, (o: Observation) => if stage in o.facts.status then Some(o.facts.status[stage]) else None)
  }

  function CategoricalStatus(group: seq<Observation>, stage: Stage): Gate {
    var values := StatusValues(group, stage);
    if values == {} then Gate(false, KeyName(stage) + "_MISSING")
    else if "CONFLICT" in values || ("PASS" in values && "FAIL" in values) then Gate(false, KeyName(stage) + "_CONFLICT")
    else if "FAIL" in values then Gate(false, KeyName(stage) + "_FAILED")
    else if values == {"PASS"} then Gate(true, KeyName(stage) + "_PASS")
    else Gate(false, KeyName(stage) + "_UNSUPPORTED")
  }

  /** The one named reason of the failing facts, or the generic one. */
  function Precise(reasons: set<string>, conflict: string, generic: Gate): Gate {
    if |reasons| == 1 then
      var reason :| reason in reasons;
      assert forall other :: other in reasons ==> other == reason by { SingletonMember(reasons, reason); }
      Gate(false, reason)
    else if |reasons| > 1 then Gate(false, conflict)
    else generic
  }

  lemma SingletonMember<T>(s: set<T>, x: T)
    requires |s| == 1 && x in s
    ensures s == {x}
  {
    assert |s - {x}| == 0;
  }

  /** The first mint-account evidence that is not about this exact mint. */
  function MintEvidenceProblem(group: seq<Observation>, mint: string): Option<string> {
    if group == [] then None
    else
      var earlier := MintEvidenceProblem(group[..|group| - 1], mint);
      if earlier.Some? then earlier
      else
        match group[|group| - 1].facts.mintEvidence
        case None => None
        case Some(e) =>
          if e.target != mint then Some("MINT_EVIDENCE_MERGE_KEY_MISMATCH")
          else if e.response.Some? && e.response.value != e.target then Some("MINT_TARGET_MISMATCH")
          else None
  }

  function FailureReasons(group: seq<Observation>, stage: Stage, reason: Facts -> string): set<string> {
    Seen(group, (o: Observation) =>
           if stage in o.facts.status && o.facts.status[stage] == "FAIL" && reason(o.facts) != "" then Some(reason(o.facts)) else None)
  }

  function MintGate(group: seq<Observation>, mint: string): Gate {
    var problem := MintEvidenceProblem(group, mint);
    if problem.Some? then Gate(false, problem.value)
    else
      var generic := CategoricalStatus(group, ChainMintValid);
      if generic.passed then generic
      else Precise(FailureReasons(group, ChainMintValid, (f: Facts) => f.mintFailureReason), "MINT_EVIDENCE_REASON_CONFLICT", generic)
  }

  predicate PoolTargetMismatch(group: seq<Observation>, pool: Option<string>) {
    pool.Some? && exists i :: 0 <= i < |group| && group[i].facts.poolTarget.Some? && group[i].facts.poolTarget != pool
  }

  function PoolStatusGate(group: seq<Observation>, pool: Option<string>): Gate {
    if PoolTargetMismatch(group, pool) then Gate(false, "POOL_TARGET_MISMATCH")
    else
      var generic := CategoricalStatus(group, PoolQuoteValid);
      if generic.passed then generic
      else Precise(FailureReasons(group, PoolQuoteValid, (f: Facts) => f.poolFailureReason), "POOL_EVIDENCE_REASON_CONFLICT", generic)
  }

  // ---- Lineage ----

  function Claims(group: seq<Observation>): set<string> {
    Seen(group, (o: Observation) => o.lineageClaim)
  }

  predicate HasBranch(group: seq<Observation>, branch: string) {
    exists i :: 0 <= i < |group| && MigrationBranch in group[i].facts.pump && group[i].facts.pump[MigrationBranch] == Text(branch)
  }

  function LineageState(group: seq<Observation>): Lineage {
    var claims := Claims(group);
    var pump := "PUMP_GRADUATION_CONFIRMED" in claims || "PUMP_ORIGIN_CONFIRMED" in claims;
    var nonPump := "NON_PUMP_POOL_CONFIRMED" in claims;
    if "CONFLICTING_LINEAGE" in claims || HasBranch(group, "PUMP_LINEAGE_CONFLICT") || (pump && nonPump) then ConflictingLineage
    else if "PUMP_GRADUATION_CONFIRMED" in claims then GraduationConfirmed
    else if HasBranch(group, "PUMP_GRADUATION_CLAIMED") then UnsupportedLineage
    else if "PUMP_ORIGIN_CONFIRMED" in claims then OriginConfirmed
    else if nonPump then NonPumpPoolConfirmed
    else if "UNSUPPORTED_LINEAGE" in claims then UnsupportedLineage
    else UnknownOrigin
  }

  predicate Carries(o: Observation, key: PumpKey, value: Value) {
    key in o.facts.pump && o.facts.pump[key] == value
  }

  predicate PumpFactConflict(group: seq<Observation>) {
    exists i, j, key :: && 0 <= i < |group| && 0 <= j < |group| && key in group[i].facts.pump && key in group[j].facts.pump
                        && group[i].facts.pump[key] != group[j].facts.pump[key]
  }

  /** Some observation states the fact; without conflicts that is the merged value. */
  predicate States(group: seq<Observation>, key: PumpKey) {
    exists i :: 0 <= i < |group| && key in group[i].facts.pump
  }

  predicate StatesValue(group: seq<Observation>, key: PumpKey, value: Value) {
    exists i :: 0 <= i < |group| && Carries(group[i], key, value)
  }

  const GRADUATION_PROOF: set<PumpKey> :=
    {OriginSignature, OriginContractHash, MigrationSignature, MigrationContractHash, SwapAccountHash, SwapContractHash}

  const CURVE_PROOF: set<PumpKey> :=
    {OriginSignature, OriginContractHash, CurveAddress, CurveAccountHash, CurveContractHash, CurveComplete}

  function FailureReasonTexts(group: seq<Observation>): set<string> {
    Seen(group, (o: Observation) =>
           if MigrationFailureReason in o.facts.pump && o.facts.pump[MigrationFailureReason].Text?
              && o.facts.pump[MigrationFailureReason].text != ""
           then Some(o.facts.pump[MigrationFailureReason].text) else None)
  }

  function LineageGate(lineage: Lineage, group: seq<Observation>): Gate {
    if PumpFactConflict(group) then Gate(false, "PUMP_LINEAGE_FACT_CONFLICT")
    else
      match lineage
      case GraduationConfirmed =>
        if exists key :: key in GRADUATION_PROOF && !States(group, key) then Gate(false, "PUMP_PROOF_INCOMPLETE")
        else if !StatesValue(group, OriginContractHash, Text(PUMP_IDL_SHA256)) then Gate(false, "PUMP_ORIGIN_CONTRACT_MISMATCH")
        else if !StatesValue(group, MigrationContractHash, Text(PUMP_IDL_SHA256)) then Gate(false, "PUMP_MIGRATION_CONTRACT_MISMATCH")
        else if !StatesValue(group, SwapContractHash, Text(PUMPSWAP_IDL_SHA256)) then Gate(false, "PUMPSWAP_CONTRACT_MISMATCH")
        else if !StatesValue(group, SwapIndex, Number(0)) then Gate(false, "PUMP_CANONICAL_POOL_INDEX_REQUIRED")
        else Gate(true, "PUMP_EXACT_LINEAGE_PASS")
      case OriginConfirmed =>
        if exists key :: key in CURVE_PROOF && !States(group, key) then Gate(false, "PUMP_BONDING_CURVE_PROOF_INCOMPLETE")
        else if !StatesValue(group, OriginContractHash, Text(PUMP_IDL_SHA256)) || !StatesValue(group, CurveContractHash, Text(PUMP_IDL_SHA256))
          then Gate(false, "PUMP_BONDING_CURVE_CONTRACT_MISMATCH")
        else if !StatesValue(group, CurveComplete, Flag(false)) then Gate(false, "PUMP_BONDING_CURVE_COMPLETE_REQUIRES_GRADUATION")
        else Gate(true, "PUMP_EXACT_BONDING_CURVE_LINEAGE_PASS")
      case NonPumpPoolConfirmed => Gate(true, "NON_PUMP_POOL_CONFIRMED_PRESENT_POOL_PASS")
      case UnknownOrigin => Gate(true, "UNKNOWN_ORIGIN_PRESENT_POOL_PASS")
      case ConflictingLineage =>
        Precise(FailureReasonTexts(group), "PUMP_MIGRATION_MULTIPLE_FAILURE_REASONS", Gate(false, "CONFLICTING_LINEAGE_REJECTED"))
      case UnsupportedLineage =>
        Precise(FailureReasonTexts(group), "PUMP_MIGRATION_MULTIPLE_FAILURE_REASONS", Gate(false, "UNSUPPORTED_LINEAGE_REJECTED"))
  }

  // ---- One candidate ----

  datatype Identity = Identity(
    pool: Option<string>, poolProgram: Option<string>, baseMint: Option<string>, quoteMint: Option<string>,
    tokenProgram: Option<string>, status: IdentityStatus)

  predicate Conflicted(group: seq<Observation>, crossPools: set<string>) {
    || |Seen(group, PoolOf)| > 1 || |Seen(group, ProgramOf)| > 1 || |Seen(group, BaseOf)| > 1 || |Seen(group, QuoteOf)| > 1
    || |Seen(group, TokenProgramOf)| > 1 || Seen(group, PoolOf) * crossPools != {}
  }

  predicate SupportedProgram(program: Option<string>) {
    program.Some? && program.value in SUPPORTED_TOKEN_PROGRAMS
  }

  function IdentityOf(group: seq<Observation>, crossPools: set<string>): Identity {
    var conflict := Conflicted(group, crossPools);
    var pool := if conflict then None else Least(group, PoolOf);
    var base, token := Least(group, BaseOf), Least(group, TokenProgramOf);
    var available := pool.Some? && base.Some? && SupportedProgram(token);
    Identity(pool, Least(group, ProgramOf), base, Least(group, QuoteOf), token,
             if conflict then IdentityConflict else if available then IdentityMerged else IdentityIncomplete)
  }

  predicate PoolQuoteComplete(id: Identity, mint: string) {
    && id.pool.Some? && SupportedProgram(id.tokenProgram)
    && id.poolProgram.Some? && id.baseMint == Some(mint) && id.quoteMint.Some? && id.quoteMint.value in ALLOWED_QUOTE_MINTS
  }

  function IdentityReason(status: IdentityStatus): string {
    match status
    case IdentityConflict => "IDENTITY_CONFLICT"
    case IdentityMerged => "IDENTITY_MERGED"
    case IdentityIncomplete => "IDENTITY_INCOMPLETE"
  }

  function EarliestExpiry(group: seq<Observation>): int
    requires group != []
  {
    if |group| == 1 then group[0].expiresAt else Min(EarliestExpiry(group[..|group| - 1]), group[|group| - 1].expiresAt)
  }

  predicate Stale(group: seq<Observation>, cutoff: int)
    requires group != []
  {
    EarliestExpiry(group) <= cutoff || exists i :: 0 <= i < |group| && group[i].sourceStale
  }

  /** What one stage decides, when it is reached. */
  function StageGate(stage: Stage, group: seq<Observation>, mint: string, id: Identity, cutoff: int): Gate
    requires group != []
  {
    if stage == IdentityAvailable && id.status != IdentityMerged then Gate(false, IdentityReason(id.status))
    else if stage == TokenProgramValid && !SupportedProgram(id.tokenProgram) then Gate(false, "UNSUPPORTED_TOKEN_PROGRAM")
    else if stage == PoolQuoteValid then
      var gate := PoolStatusGate(group, id.pool);
      if gate.passed && id.baseMint != Some(mint) then Gate(false, "BASE_QUOTE_ORIENTATION_MISMATCH")
      else if gate.passed && !PoolQuoteComplete(id, mint) then Gate(false, "EXACT_POOL_QUOTE_IDENTITY_REQUIRED")
      else gate
    else if stage == MarketFresh && Stale(group, cutoff) then Gate(false, "STALE_OR_EXPIRED_EVIDENCE")
    else if stage == LineageValid then LineageGate(LineageState(group), group)
    else if stage == ChainMintValid then MintGate(group, mint)
    else CategoricalStatus(group, stage)
  }

  // ---- The funnel: gates in order, up to the first failure ----

  type Gates = Stage -> Gate

  predicate PassedBefore(gates: Gates, k: nat)
    requires k <= |STAGES|
  {
    forall i :: 0 <= i < k ==> gates(STAGES[i]).passed
  }

  function ResultAt(gates: Gates, k: nat): StageResult
    requires k < |STAGES|
  {
    if !PassedBefore(gates, k) then StageResult(STAGES[k], NotReached, "PRIOR_STAGE_FAILED")
    else StageResult(STAGES[k], if gates(STAGES[k]).passed then Pass else Fail, gates(STAGES[k]).reason)
  }

  function Funnel(gates: Gates): (r: seq<StageResult>)
    ensures |r| == |STAGES|
  {
    seq(|STAGES|, k requires 0 <= k < |STAGES| => ResultAt(gates, k))
  }

  /** The stage loop: after the first failure no stage is reached. */
  method RunStages(gates: Gates) returns (stages: seq<StageResult>, firstFailure: Option<string>)
    ensures stages == Funnel(gates)
    ensures firstFailure.None? <==> PassedBefore(gates, |STAGES|)
  {
    stages, firstFailure := [], None;
    for k := 0 to |STAGES|
      invariant |stages| == k && forall i :: 0 <= i < k ==> stages[i] == ResultAt(gates, i)
      invariant firstFailure.None? <==> PassedBefore(gates, k)
    {
      if firstFailure.Some? {
        stages := stages + [StageResult(STAGES[k], NotReached, "PRIOR_STAGE_FAILED")];
      } else {
        var gate := gates(STAGES[k]);
        if !gate.passed {
          firstFailure := Some(gate.reason);
        }
        stages := stages + [StageResult(STAGES[k], if gate.passed then Pass else Fail, gate.reason)];
      }
    }
  }

  function GatesOf(group: seq<Observation>, mint: string, id: Identity, cutoff: int): Gates
    requires group != []
  {
    stage => StageGate(stage, group, mint, id, cutoff)
  }

  function CandidateOf(observations: seq<Observation>, mint: string, cutoff: int): Candidate
    requires GroupOf(observations, mint) != []
  {
    var group := GroupOf(observations, mint);
    var id := IdentityOf(group, CrossMintPools(observations));
    Candidate(mint, id.pool, id.poolProgram, id.baseMint, id.quoteMint, id.tokenProgram, LineageState(group), id.status,
              Funnel(GatesOf(group, mint, id, cutoff)), EarliestExpiry(group))
  }

  // ---- All candidates of an execution ----

  /** Mints in the order of their first appearance. */
  function MintsSeen(observations: seq<Observation>): (r: seq<string>)
    ensures Distinct(r)
    ensures forall m :: m in r <==> GroupOf(observations, m) != []
  {
    if observations == [] then []
    else
      var last := observations[|observations| - 1];
      var front := MintsSeen(observations[..|observations| - 1]);
      if last.mint.Some? && last.mint.value !in front then front + [last.mint.value] else front
  }

  function EvaluatedMints(observations: seq<Observation>, capacity: nat): (r: seq<string>)
    ensures |r| <= capacity
  {
    var sorted := SortBy(MintsSeen(observations), StrLe);
    if |sorted| > capacity then sorted[..capacity] else sorted
  }

  /** The evaluated mints are a prefix of the seen ones in text order. */
  lemma EvaluatedAreFirst(observations: seq<Observation>, capacity: nat)
    ensures var mints, seen := EvaluatedMints(observations, capacity), MintsSeen(observations);
            && |mints| == Min(capacity, |seen|) && Distinct(mints) && Sorted(mints, StrLe)
            && (forall m :: m in mints ==> m in seen)
            && (forall m, n :: m in seen && m !in mints && n in mints ==> StrLe(n, m))
  {
    var mints, seen := EvaluatedMints(observations, capacity), MintsSeen(observations);
    var sorted := SortBy(seen, StrLe);
    StrOrder();
    SortIsPermutation(seen, StrLe);
    SortIsSorted(seen, StrLe);
    PermutationMembers(sorted, seen);
    assert mints <= sorted;
    forall m, n | m in seen && m !in mints && n in mints ensures StrLe(n, m) {
      var i :| 0 <= i < |mints| && mints[i] == n;
      var k :| 0 <= k < |sorted| && sorted[k] == m;
      assert sorted[i] == n && k >= |mints|;
    }
  }

  predicate AllSeen(observations: seq<Observation>, mints: seq<string>) {
    forall i :: 0 <= i < |mints| ==> GroupOf(observations, mints[i]) != []
  }

  lemma MintsAreSeen(observations: seq<Observation>, capacity: nat)
    ensures Distinct(EvaluatedMints(observations, capacity)) && AllSeen(observations, EvaluatedMints(observations, capacity))
  {
    SortIsPermutation(MintsSeen(observations), StrLe);
    var sorted := SortBy(MintsSeen(observations), StrLe);
    var mints := EvaluatedMints(observations, capacity);
    forall i | 0 <= i < |mints| ensures GroupOf(observations, mints[i]) != [] {
      assert sorted[i] in sorted;
    }
  }

  function Mapped<T, U>(s: seq<T>, f: T --> U): (r: seq<U>)
    requires forall i :: 0 <= i < |s| ==> f.requires(s[i])
    ensures |r| == |s| && forall i :: 0 <= i < |s| ==> r[i] == f(s[i])
  {
    if s == [] then [] else Mapped(s[..|s| - 1], f) + [f(s[|s| - 1])]
  }

  lemma MappedNext(mints: seq<string>, i: nat, f: string --> Candidate)
    requires i < |mints| && forall k :: 0 <= k < |mints| ==> f.requires(mints[k])
    ensures Mapped(mints[..i + 1], f) == Mapped(mints[..i], f) + [f(mints[i])]
  {
    assert mints[..i + 1][..i] == mints[..i];
  }

  function Evaluator(observations: seq<Observation>, cutoff: int): string --> Candidate {
    mint requires GroupOf(observations, mint) != [] => CandidateOf(observations, mint, cutoff)
  }

  function Candidates(observations: seq<Observation>, capacity: nat, cutoff: int): (r: seq<Candidate>)
  {
    MintsAreSeen(observations, capacity);
    Mapped(EvaluatedMints(observations, capacity), Evaluator(observations, cutoff))
  }

  method EvaluateMint(observations: seq<Observation>, mint: string, crossPools: set<string>, cutoff: int) returns (c: Candidate)
    requires GroupOf(observations, mint) != [] && crossPools == CrossMintPools(observations)
    ensures c == Evaluator(observations, cutoff)(mint)
    ensures c.Admitted() <==> IsAdmissible(observations, mint, cutoff)
  {
    AdmittedExactlyWhenAdmissible(observations, mint, cutoff);
    var group := GroupOf(observations, mint);
    var id := IdentityOf(group, crossPools);
    var stages, _ := RunStages(GatesOf(group, mint, id, cutoff));
    return Candidate(mint, id.pool, id.poolProgram, id.baseMint, id.quoteMint, id.tokenProgram,
                     LineageState(group), id.status, stages, EarliestExpiry(group));
  }

  /** Evaluates the first `capacity` mints in text order; pool conflicts are judged over every mint. */
  method BuildCandidates(observations: seq<Observation>, capacity: nat, cutoff: int) returns (candidates: seq<Candidate>)
    ensures candidates == Candidates(observations, capacity, cutoff)
    ensures FirstMintsInOrder(observations, capacity, candidates)
    ensures forall i :: 0 <= i < |candidates| ==> (candidates[i].Admitted() <==> IsAdmissible(observations, candidates[i].mint, cutoff))
    ensures forall i :: 0 <= i < |candidates| ==> FunnelShape(candidates[i].stages)
    ensures forall i, j :: 0 <= i < j < |candidates| && candidates[i].Admitted() && candidates[j].Admitted() ==>
              candidates[i].mint != candidates[j].mint && candidates[i].pool != candidates[j].pool
  {
    MintsAreSeen(observations, capacity);
    candidates := EvaluateMints(observations, EvaluatedMints(observations, capacity), cutoff);
    CandidatesPromise(observations, capacity, cutoff);
    CandidatesAreAdmissible(observations, capacity, cutoff);
  }

  /** The loop over the mints. */
  method EvaluateMints(observations: seq<Observation>, mints: seq<string>, cutoff: int) returns (candidates: seq<Candidate>)
    requires AllSeen(observations, mints)
    ensures candidates == Mapped(mints, Evaluator(observations, cutoff))
  {
    var crossPools := CrossMintPools(observations);
    assert mints[..|mints|] == mints;
    candidates := [];
    for i := 0 to |mints|
      invariant candidates == Mapped(mints[..i], Evaluator(observations, cutoff))
    {
      MappedNext(mints, i, Evaluator(observations, cutoff));
      var candidate := EvaluateMint(observations, mints[i], crossPools, cutoff);
      candidates := candidates + [candidate];
    }
  }

  function CandidateMints(candidates: seq<Candidate>): set<string> {
    set c | c in candidates :: c.mint
  }

  /** The candidates are those of the first mints in text order, one each: all of them, unless there
      are more than the capacity, and then every mint left out comes after those that were taken. */
  ghost predicate FirstMintsInOrder(observations: seq<Observation>, capacity: nat, candidates: seq<Candidate>) {
    && |candidates| == Min(capacity, |MintsSeen(observations)|)
    && (forall c :: c in candidates ==> c.mint in MintsSeen(observations))
    && (forall i, j :: 0 <= i < j < |candidates| ==> StrLe(candidates[i].mint, candidates[j].mint) && candidates[i].mint != candidates[j].mint)
    && (forall m, c :: m in MintsSeen(observations) && m !in CandidateMints(candidates) && c in candidates ==> StrLe(c.mint, m))
  }

  // ---- What the funnel promises ----

  /** Stage outcomes are passes, then at most one failure, then only unreached stages. */
  ghost predicate FunnelShape(stages: seq<StageResult>) {
    && |stages| == |STAGES|
    && (forall i :: 0 <= i < |stages| ==> stages[i].stage == STAGES[i])
    && exists k: nat :: StopsAt(stages, k)
  }

  ghost predicate StopsAt(stages: seq<StageResult>, k: nat) {
    && k <= |stages|
    && (forall i :: 0 <= i < k ==> stages[i].outcome == Pass)
    && (k < |stages| ==> stages[k].outcome == Fail)
    && (forall i :: k < i < |stages| ==> stages[i].outcome == NotReached)
  }

  lemma {:induction false} FirstFailure(gates: Gates, n: nat) returns (k: nat)
    requires n <= |STAGES|
    ensures k <= n && PassedBefore(gates, k) && (k < n ==> !gates(STAGES[k]).passed)
  {
    if n == 0 {
      k := 0;
    } else {
      k := FirstFailure(gates, n - 1);
      if k == n - 1 && gates(STAGES[n - 1]).passed {
        k := n;
      }
    }
  }

  lemma FunnelHasShape(gates: Gates)
    ensures FunnelShape(Funnel(gates))
    ensures forall i :: 0 <= i < |STAGES| && Funnel(gates)[i].outcome == NotReached ==> Funnel(gates)[i].reason == "PRIOR_STAGE_FAILED"
    ensures (forall i :: 0 <= i < |STAGES| ==> Funnel(gates)[i].outcome != Fail) <==> PassedBefore(gates, |STAGES|)
  {
    var k := FirstFailure(gates, |STAGES|);
    var stages := Funnel(gates);
    forall i | k < i < |stages| ensures stages[i].outcome == NotReached {
      assert !gates(STAGES[k]).passed;
    }
    assert StopsAt(stages, k);
  }

  lemma AdmittedStages(c: Candidate, gates: Gates)
    requires c.stages == Funnel(gates)
    ensures FunnelShape(c.stages)
    ensures c.Admitted() <==> forall i :: 0 <= i < |STAGES| ==> gates(STAGES[i]).passed
    ensures c.Admitted() <==> forall i :: 0 <= i < |c.stages| ==> c.stages[i].outcome == Pass
  {
    FunnelHasShape(gates);
  }

  /** An admitted candidate passed all eleven gates, and conversely. */
  lemma AdmittedExactly(observations: seq<Observation>, mint: string, cutoff: int)
    requires GroupOf(observations, mint) != []
    ensures var c, group := CandidateOf(observations, mint, cutoff), GroupOf(observations, mint);
            var gates := GatesOf(group, mint, IdentityOf(group, CrossMintPools(observations)), cutoff);
            && FunnelShape(c.stages)
            && (c.Admitted() <==> forall i :: 0 <= i < |STAGES| ==> gates(STAGES[i]).passed)
            && (c.Admitted() <==> forall i :: 0 <= i < |c.stages| ==> c.stages[i].outcome == Pass)
  {
    var group := GroupOf(observations, mint);
    AdmittedStages(CandidateOf(observations, mint, cutoff), GatesOf(group, mint, IdentityOf(group, CrossMintPools(observations)), cutoff));
  }

  /** What the four identity-bearing gates establish. */
  lemma GatesEstablish(group: seq<Observation>, mint: string, id: Identity, cutoff: int)
    requires group != []
    ensures StageGate(IdentityAvailable, group, mint, id, cutoff).passed ==> id.status == IdentityMerged
    ensures StageGate(PoolQuoteValid, group, mint, id, cutoff).passed ==> PoolQuoteComplete(id, mint)
    ensures StageGate(MarketFresh, group, mint, id, cutoff).passed ==> !Stale(group, cutoff)
  {
  }

  lemma LineageGateEstablishes(lineage: Lineage, group: seq<Observation>)
    ensures LineageGate(lineage, group).passed ==> !PumpFactConflict(group) && lineage !in {ConflictingLineage, UnsupportedLineage}
    ensures LineageGate(lineage, group).passed && lineage == GraduationConfirmed ==> forall key :: key in GRADUATION_PROOF ==> States(group, key)
    ensures LineageGate(lineage, group).passed && lineage == GraduationConfirmed ==>
              StatesValue(group, OriginContractHash, Text(PUMP_IDL_SHA256)) && StatesValue(group, SwapIndex, Number(0))
  {
    PreciseNeverPasses(FailureReasonTexts(group), "PUMP_MIGRATION_MULTIPLE_FAILURE_REASONS", Gate(false, "CONFLICTING_LINEAGE_REJECTED"));
    PreciseNeverPasses(FailureReasonTexts(group), "PUMP_MIGRATION_MULTIPLE_FAILURE_REASONS", Gate(false, "UNSUPPORTED_LINEAGE_REJECTED"));
  }

  lemma PreciseNeverPasses(reasons: set<string>, conflict: string, generic: Gate)
    requires !generic.passed
    ensures !Precise(reasons, conflict, generic).passed
  {
  }

  lemma ListedStages()
    ensures STAGES[2] == IdentityAvailable && STAGES[3] == PoolQuoteValid && STAGES[4] == MarketFresh && STAGES[10] == LineageValid
  {
  }

  lemma PassesAll(gates: Gates)
    requires forall i :: 0 <= i < |STAGES| ==> gates(STAGES[i]).passed
    ensures gates(IdentityAvailable).passed && gates(PoolQuoteValid).passed && gates(MarketFresh).passed && gates(LineageValid).passed
  {
    ListedStages();
  }

  lemma AtMostOne<T>(s: set<T>, x: T, y: T)
    requires |s| <= 1 && x in s && y in s
    ensures x == y
  {
    assert |s - {x}| == |s| - 1;
    assert y !in s - {x};
  }

  /** A merged identity has one pool, and no observation of another mint names that pool, whether or
      not that mint is evaluated. */
  lemma MergedPoolIsExclusive(observations: seq<Observation>, mint: string, o: Observation)
    requires GroupOf(observations, mint) != [] && o in observations
    requires IdentityOf(GroupOf(observations, mint), CrossMintPools(observations)).status == IdentityMerged
    ensures var pool := IdentityOf(GroupOf(observations, mint), CrossMintPools(observations)).pool;
            && pool.Some?
            && (o.mint == Some(mint) && o.pool.Some? ==> o.pool == pool)
            && (o.pool == pool && o.mint.Some? ==> o.mint == Some(mint))
  {
    var group, cross := GroupOf(observations, mint), CrossMintPools(observations);
    var pool := Least(group, PoolOf).value;
    PoolIsObserved(observations, mint, pool);
    assert |Seen(group, PoolOf)| <= 1 && pool in Seen(group, PoolOf) && pool !in cross;
    if o.mint == Some(mint) && o.pool.Some? {
      OwnPoolIsThePool(group, pool, o);
    }
    if o.pool == Some(pool) && o.mint.Some? {
      PoolNamesOneMint(observations, mint, pool, o);
    }
  }

  lemma OwnPoolIsThePool(group: seq<Observation>, pool: string, o: Observation)
    requires |Seen(group, PoolOf)| <= 1 && pool in Seen(group, PoolOf) && o in group && o.pool.Some?
    ensures o.pool == Some(pool)
  {
    var k :| 0 <= k < |group| && group[k] == o;
    assert PoolOf(group[k]) == Some(o.pool.value);
    AtMostOne(Seen(group, PoolOf), pool, o.pool.value);
  }

  lemma PoolNamesOneMint(observations: seq<Observation>, mint: string, pool: string, o: Observation)
    requires |PoolMints(observations, pool)| <= 1 && mint in PoolMints(observations, pool)
    requires o in observations && o.pool == Some(pool) && o.mint.Some?
    ensures o.mint == Some(mint)
  {
    var k :| 0 <= k < |observations| && observations[k] == o;
    AtMostOne(PoolMints(observations, pool), mint, o.mint.value);
  }

  lemma PoolIsObserved(observations: seq<Observation>, mint: string, pool: string)
    requires pool in Seen(GroupOf(observations, mint), PoolOf)
    ensures pool in Seen(observations, PoolOf) && mint in PoolMints(observations, pool)
  {
    var group := GroupOf(observations, mint);
    var i :| 0 <= i < |group| && PoolOf(group[i]) == Some(pool);
    assert group[i] in group;
    var k :| 0 <= k < |observations| && observations[k] == group[i];
    assert PoolOf(observations[k]) == Some(pool);
  }

  /** Admission is sound: an admitted candidate has one exact pool, is that pool's base mint against
      an allowed quote, under a supported token program, on fresh and unconflicted evidence. */
  lemma AdmissionIsSound(observations: seq<Observation>, mint: string, cutoff: int)
    requires GroupOf(observations, mint) != [] && CandidateOf(observations, mint, cutoff).Admitted()
    ensures var c, group := CandidateOf(observations, mint, cutoff), GroupOf(observations, mint);
            && c.identity == IdentityMerged && c.pool.Some?
            && c.baseMint == Some(mint) && c.quoteMint.Some? && c.quoteMint.value in ALLOWED_QUOTE_MINTS
            && SupportedProgram(c.tokenProgram) && c.poolProgram.Some?
            && !Stale(group, cutoff)
            && c.lineage !in {ConflictingLineage, UnsupportedLineage} && !PumpFactConflict(group)
            && (forall o :: o in observations && o.mint == Some(mint) && o.pool.Some? ==> o.pool == c.pool)
            && (forall o :: o in observations && o.mint.Some? && o.pool == c.pool ==> o.mint == Some(mint))
  {
    AdmittedGates(observations, mint, cutoff);
    PoolIsExclusive(observations, mint);
  }

  lemma GatesPassed(group: seq<Observation>, mint: string, id: Identity, cutoff: int)
    requires group != []
    requires var gates := GatesOf(group, mint, id, cutoff); forall i :: 0 <= i < |STAGES| ==> gates(STAGES[i]).passed
    ensures id.status == IdentityMerged && PoolQuoteComplete(id, mint) && !Stale(group, cutoff)
    ensures LineageState(group) !in {ConflictingLineage, UnsupportedLineage} && !PumpFactConflict(group)
  {
    PassesAll(GatesOf(group, mint, id, cutoff));
    GatesEstablish(group, mint, id, cutoff);
    LineageGateEstablishes(LineageState(group), group);
  }

  lemma AdmittedGates(observations: seq<Observation>, mint: string, cutoff: int)
    requires GroupOf(observations, mint) != [] && CandidateOf(observations, mint, cutoff).Admitted()
    ensures var group := GroupOf(observations, mint);
            var id := IdentityOf(group, CrossMintPools(observations));
            && id.status == IdentityMerged && PoolQuoteComplete(id, mint) && !Stale(group, cutoff)
            && LineageState(group) !in {ConflictingLineage, UnsupportedLineage} && !PumpFactConflict(group)
  {
    AdmittedExactly(observations, mint, cutoff);
    GatesPassed(GroupOf(observations, mint), mint, IdentityOf(GroupOf(observations, mint), CrossMintPools(observations)), cutoff);
  }

  lemma PoolIsExclusive(observations: seq<Observation>, mint: string)
    requires GroupOf(observations, mint) != []
    requires IdentityOf(GroupOf(observations, mint), CrossMintPools(observations)).status == IdentityMerged
    ensures var pool := IdentityOf(GroupOf(observations, mint), CrossMintPools(observations)).pool;
            && (forall o :: o in observations && o.mint == Some(mint) && o.pool.Some? ==> o.pool == pool)
            && (forall o :: o in observations && o.mint.Some? && o.pool == pool ==> o.mint == Some(mint))
  {
    var pool := IdentityOf(GroupOf(observations, mint), CrossMintPools(observations)).pool;
    forall o | o in observations
      ensures o.mint == Some(mint) && o.pool.Some? ==> o.pool == pool
      ensures o.mint.Some? && o.pool == pool ==> o.mint == Some(mint)
    {
      MergedPoolIsExclusive(observations, mint, o);
    }
  }

  /** No two admitted candidates share a mint or a pool, however many mints were observed. */
  lemma AdmittedIdentitiesDistinct(observations: seq<Observation>, capacity: nat, cutoff: int, i: nat, j: nat)
    requires i < j < |Candidates(observations, capacity, cutoff)|
    ensures var a, b := Candidates(observations, capacity, cutoff)[i], Candidates(observations, capacity, cutoff)[j];
            a.mint != b.mint && (a.Admitted() && b.Admitted() ==> a.pool != b.pool)
  {
    var mints := EvaluatedMints(observations, capacity);
    MintsAreSeen(observations, capacity);
    var a, b := CandidateOf(observations, mints[i], cutoff), CandidateOf(observations, mints[j], cutoff);
    if a.Admitted() && b.Admitted() {
      AdmissionIsSound(observations, mints[i], cutoff);
      AdmissionIsSound(observations, mints[j], cutoff);
      AdmittedPoolIsObserved(observations, mints[j], cutoff);
    }
  }

  lemma EvaluatedCandidate(observations: seq<Observation>, mint: string, cutoff: int)
    requires GroupOf(observations, mint) != []
    ensures var c := Evaluator(observations, cutoff)(mint); c.mint == mint && FunnelShape(c.stages)
  {
    AdmittedExactly(observations, mint, cutoff);
  }

  /** A list of candidates with the evaluated mints, in their order. */
  lemma MintsCarryOver(observations: seq<Observation>, capacity: nat, candidates: seq<Candidate>)
    requires |candidates| == |EvaluatedMints(observations, capacity)|
    requires forall i :: 0 <= i < |candidates| ==> candidates[i].mint == EvaluatedMints(observations, capacity)[i]
    ensures FirstMintsInOrder(observations, capacity, candidates)
  {
    var mints := EvaluatedMints(observations, capacity);
    EvaluatedAreFirst(observations, capacity);
    forall m | m in mints ensures m in CandidateMints(candidates) {
      var i :| 0 <= i < |mints| && mints[i] == m;
      assert candidates[i] in candidates;
    }
    forall c | c in candidates ensures c.mint in mints {
      var i :| 0 <= i < |candidates| && candidates[i] == c;
    }
  }

  lemma CandidatesAreJudged(observations: seq<Observation>, capacity: nat, cutoff: int)
    ensures var mints, candidates := EvaluatedMints(observations, capacity), Candidates(observations, capacity, cutoff);
            |candidates| == |mints| && forall i :: 0 <= i < |mints| ==> candidates[i].mint == mints[i] && FunnelShape(candidates[i].stages)
  {
    var mints, candidates := EvaluatedMints(observations, capacity), Candidates(observations, capacity, cutoff);
    MintsAreSeen(observations, capacity);
    forall i | 0 <= i < |mints| ensures candidates[i].mint == mints[i] && FunnelShape(candidates[i].stages) {
      EvaluatedCandidate(observations, mints[i], cutoff);
    }
  }

  /** What the whole list of candidates means to a caller. */
  lemma CandidatesPromise(observations: seq<Observation>, capacity: nat, cutoff: int)
    ensures var candidates := Candidates(observations, capacity, cutoff);
            && FirstMintsInOrder(observations, capacity, candidates)
            && (forall i :: 0 <= i < |candidates| ==> FunnelShape(candidates[i].stages))
            && (forall i, j :: 0 <= i < j < |candidates| && candidates[i].Admitted() && candidates[j].Admitted() ==>
                  candidates[i].mint != candidates[j].mint && candidates[i].pool != candidates[j].pool)
  {
    var candidates := Candidates(observations, capacity, cutoff);
    CandidatesAreJudged(observations, capacity, cutoff);
    MintsCarryOver(observations, capacity, candidates);
    forall i: nat, j: nat | i < j < |candidates| && candidates[i].Admitted() && candidates[j].Admitted()
      ensures candidates[i].mint != candidates[j].mint && candidates[i].pool != candidates[j].pool
    {
      AdmittedIdentitiesDistinct(observations, capacity, cutoff, i, j);
    }
  }

  lemma AdmittedPoolIsObserved(observations: seq<Observation>, mint: string, cutoff: int)
    requires GroupOf(observations, mint) != [] && CandidateOf(observations, mint, cutoff).pool.Some?
    ensures exists o :: o in observations && o.mint == Some(mint) && o.pool == CandidateOf(observations, mint, cutoff).pool
  {
    var group := GroupOf(observations, mint);
    var pool := Least(group, PoolOf).value;
    var k :| 0 <= k < |group| && PoolOf(group[k]) == Some(pool);
    assert group[k] in group;
  }

  // ---- Admission, over the observations ----

  predicate SaysStatus(o: Observation, stage: Stage, text: string) {
    stage in o.facts.status && o.facts.status[stage] == text
  }

  /** Some observation states the fact of the stage, and every one that states it says PASS. */
  ghost predicate StatedPass(group: seq<Observation>, stage: Stage) {
    && (exists i :: 0 <= i < |group| && stage in group[i].facts.status)
    && forall i :: 0 <= i < |group| && stage in group[i].facts.status ==> group[i].facts.status[stage] == "PASS"
  }

  lemma StatusSeen(group: seq<Observation>, stage: Stage, text: string)
    ensures text in StatusValues(group, stage) <==> exists i :: 0 <= i < |group| && SaysStatus(group[i], stage, text)
  {
    var get := (o: Observation) => if stage in o.facts.status then Some(o.facts.status[stage]) else None;
    assert forall i :: 0 <= i < |group| ==> (get(group[i]) == Some(text) <==> SaysStatus(group[i], stage, text));
  }

  lemma OnlyPassSeen(group: seq<Observation>, stage: Stage)
    ensures StatusValues(group, stage) == {"PASS"} <==> StatedPass(group, stage)
  {
    var values := StatusValues(group, stage);
    if StatedPass(group, stage) {
      var i :| 0 <= i < |group| && stage in group[i].facts.status;
      assert SaysStatus(group[i], stage, "PASS");
      StatusSeen(group, stage, "PASS");
      forall text | text in values ensures text == "PASS" {
        StatusSeen(group, stage, text);
      }
    }
    if values == {"PASS"} {
      StatusSeen(group, stage, "PASS");
      forall i | 0 <= i < |group| && stage in group[i].facts.status ensures group[i].facts.status[stage] == "PASS" {
        assert SaysStatus(group[i], stage, group[i].facts.status[stage]);
        StatusSeen(group, stage, group[i].facts.status[stage]);
      }
    }
  }

  lemma PassedOnlyByPass(group: seq<Observation>, stage: Stage)
    ensures CategoricalStatus(group, stage).passed <==> StatusValues(group, stage) == {"PASS"}
  {
    StatusTextsDiffer();
  }

  /** A categorical stage passes exactly when its fact is stated and always says PASS. */
  lemma CategoricalPassesExactly(group: seq<Observation>, stage: Stage)
    ensures CategoricalStatus(group, stage).passed <==> StatedPass(group, stage)
  {
    OnlyPassSeen(group, stage);
    PassedOnlyByPass(group, stage);
  }

  lemma StatusTextsDiffer()
    ensures "PASS" != "FAIL" && "PASS" != "CONFLICT" && "FAIL" != "CONFLICT"
  {
    assert "PASS"[0] == 'P' && "FAIL"[0] == 'F' && "CONFLICT"[0] == 'C';
  }

  /** Why a categorical stage fails: nothing is stated, the texts conflict, one says FAIL, or one is unknown. */
  lemma CategoricalReason(group: seq<Observation>, stage: Stage)
    ensures var gate, values, key := CategoricalStatus(group, stage), StatusValues(group, stage), KeyName(stage);
            gate.reason == key + (if values == {} then "_MISSING"
                                  else if gate.passed then "_PASS"
                                  else if "CONFLICT" in values || {"PASS", "FAIL"} <= values then "_CONFLICT"
                                  else if "FAIL" in values then "_FAILED" else "_UNSUPPORTED")
  {
    StatusTextsDiffer();
  }

  /** Every mint-account evidence is about this mint. */
  ghost predicate MintEvidenceExact(group: seq<Observation>, mint: string) {
    forall i :: 0 <= i < |group| && group[i].facts.mintEvidence.Some? ==>
                  var e := group[i].facts.mintEvidence.value;
                  e.target == mint && (e.response.Some? ==> e.response.value == mint)
  }

  lemma {:induction false} MintEvidenceExactly(group: seq<Observation>, mint: string)
    ensures MintEvidenceProblem(group, mint).None? <==> MintEvidenceExact(group, mint)
  {
    if group != [] {
      var front := group[..|group| - 1];
      MintEvidenceExactly(front, mint);
      assert group == front + [group[|group| - 1]];
    }
  }

  lemma MintGatePassesExactly(group: seq<Observation>, mint: string)
    ensures MintGate(group, mint).passed <==> MintEvidenceExact(group, mint) && StatedPass(group, ChainMintValid)
  {
    MintEvidenceExactly(group, mint);
    CategoricalPassesExactly(group, ChainMintValid);
    var generic := CategoricalStatus(group, ChainMintValid);
    if !generic.passed {
      PreciseNeverPasses(FailureReasons(group, ChainMintValid, (f: Facts) => f.mintFailureReason), "MINT_EVIDENCE_REASON_CONFLICT", generic);
    }
  }

  /** Every pool evidence is about this pool. */
  ghost predicate PoolEvidenceExact(group: seq<Observation>, pool: string) {
    forall i :: 0 <= i < |group| && group[i].facts.poolTarget.Some? ==> group[i].facts.poolTarget.value == pool
  }

  lemma PoolGatePassesExactly(group: seq<Observation>, pool: string)
    ensures PoolStatusGate(group, Some(pool)).passed <==> PoolEvidenceExact(group, pool) && StatedPass(group, PoolQuoteValid)
  {
    CategoricalPassesExactly(group, PoolQuoteValid);
    var generic := CategoricalStatus(group, PoolQuoteValid);
    if !generic.passed {
      PreciseNeverPasses(FailureReasons(group, PoolQuoteValid, (f: Facts) => f.poolFailureReason), "POOL_EVIDENCE_REASON_CONFLICT", generic);
    }
    assert PoolTargetMismatch(group, Some(pool)) <==> !PoolEvidenceExact(group, pool);
  }

  /** Some observation makes this claim about the token's origin. */
  ghost predicate Claimed(group: seq<Observation>, claim: string) {
    exists i :: 0 <= i < |group| && group[i].lineageClaim == Some(claim)
  }

  /** The pinned proof of a graduation: six facts, the three contract hashes as pinned, pool index 0. */
  ghost predicate GraduationProved(group: seq<Observation>) {
    && States(group, OriginSignature) && States(group, MigrationSignature) && States(group, SwapAccountHash)
    && StatesValue(group, OriginContractHash, Text(PUMP_IDL_SHA256)) && StatesValue(group, MigrationContractHash, Text(PUMP_IDL_SHA256))
    && StatesValue(group, SwapContractHash, Text(PUMPSWAP_IDL_SHA256)) && StatesValue(group, SwapIndex, Number(0))
  }

  /** The pinned proof of an origin on the bonding curve, which is not complete. */
  ghost predicate CurveProved(group: seq<Observation>) {
    && States(group, OriginSignature) && States(group, CurveAddress) && States(group, CurveAccountHash)
    && StatesValue(group, OriginContractHash, Text(PUMP_IDL_SHA256)) && StatesValue(group, CurveContractHash, Text(PUMP_IDL_SHA256))
    && StatesValue(group, CurveComplete, Flag(false))
  }

  /** The origin claims fit together, and what they claim is proved. */
  ghost predicate LineageAccepted(group: seq<Observation>) {
    && !PumpFactConflict(group) && !Claimed(group, "CONFLICTING_LINEAGE") && !StatesValue(group, MigrationBranch, Text("PUMP_LINEAGE_CONFLICT"))
    && var graduated, origin, other :=
         Claimed(group, "PUMP_GRADUATION_CONFIRMED"), Claimed(group, "PUMP_ORIGIN_CONFIRMED"), Claimed(group, "NON_PUMP_POOL_CONFIRMED");
       && !((graduated || origin) && other)
       && if graduated then GraduationProved(group)
          else
            && !StatesValue(group, MigrationBranch, Text("PUMP_GRADUATION_CLAIMED"))
            && (origin ==> CurveProved(group))
            && (!origin && !other ==> !Claimed(group, "UNSUPPORTED_LINEAGE"))
  }

  lemma ValueIsStated(group: seq<Observation>, key: PumpKey, value: Value)
    requires StatesValue(group, key, value)
    ensures States(group, key)
  {
    var i :| 0 <= i < |group| && Carries(group[i], key, value);
  }

  lemma GraduationGateExactly(group: seq<Observation>)
    requires !PumpFactConflict(group)
    ensures LineageGate(GraduationConfirmed, group).passed <==> GraduationProved(group)
  {
    if GraduationProved(group) {
      ValueIsStated(group, OriginContractHash, Text(PUMP_IDL_SHA256));
      ValueIsStated(group, MigrationContractHash, Text(PUMP_IDL_SHA256));
      ValueIsStated(group, SwapContractHash, Text(PUMPSWAP_IDL_SHA256));
      forall key | key in GRADUATION_PROOF ensures States(group, key) {
      }
    }
    if LineageGate(GraduationConfirmed, group).passed {
      assert OriginSignature in GRADUATION_PROOF && MigrationSignature in GRADUATION_PROOF && SwapAccountHash in GRADUATION_PROOF;
    }
  }

  lemma CurveGateExactly(group: seq<Observation>)
    requires !PumpFactConflict(group)
    ensures LineageGate(OriginConfirmed, group).passed <==> CurveProved(group)
  {
    if CurveProved(group) {
      ValueIsStated(group, OriginContractHash, Text(PUMP_IDL_SHA256));
      ValueIsStated(group, CurveContractHash, Text(PUMP_IDL_SHA256));
      ValueIsStated(group, CurveComplete, Flag(false));
      forall key | key in CURVE_PROOF ensures States(group, key) {
      }
    }
    if LineageGate(OriginConfirmed, group).passed {
      assert OriginSignature in CURVE_PROOF && CurveAddress in CURVE_PROOF && CurveAccountHash in CURVE_PROOF;
    }
  }

  lemma ClaimSeen(group: seq<Observation>, claim: string)
    ensures claim in Claims(group) <==> Claimed(group, claim)
  {
    var get := (o: Observation) => o.lineageClaim;
    assert forall i :: 0 <= i < |group| ==> (get(group[i]) == Some(claim) <==> group[i].lineageClaim == Some(claim));
  }

  /** The lineage of a group, from its claims and migration branches. */
  lemma LineageStateExactly(group: seq<Observation>)
    ensures var graduated, origin, other :=
              Claimed(group, "PUMP_GRADUATION_CONFIRMED"), Claimed(group, "PUMP_ORIGIN_CONFIRMED"), Claimed(group, "NON_PUMP_POOL_CONFIRMED");
            var conflict := Claimed(group, "CONFLICTING_LINEAGE") || StatesValue(group, MigrationBranch, Text("PUMP_LINEAGE_CONFLICT"))
                            || ((graduated || origin) && other);
            var hidden := !graduated && StatesValue(group, MigrationBranch, Text("PUMP_GRADUATION_CLAIMED"));
            && (LineageState(group) == ConflictingLineage <==> conflict)
            && (LineageState(group) == GraduationConfirmed <==> !conflict && graduated)
            && (LineageState(group) == OriginConfirmed <==> !conflict && !graduated && !hidden && origin)
            && (LineageState(group) == NonPumpPoolConfirmed <==> !conflict && !hidden && other)
            && (LineageState(group) == UnknownOrigin <==>
                  !conflict && !graduated && !hidden && !origin && !other && !Claimed(group, "UNSUPPORTED_LINEAGE"))
  {
    ClaimSeen(group, "PUMP_GRADUATION_CONFIRMED");
    ClaimSeen(group, "PUMP_ORIGIN_CONFIRMED");
    ClaimSeen(group, "NON_PUMP_POOL_CONFIRMED");
    ClaimSeen(group, "CONFLICTING_LINEAGE");
    ClaimSeen(group, "UNSUPPORTED_LINEAGE");
    BranchStated(group, "PUMP_LINEAGE_CONFLICT");
    BranchStated(group, "PUMP_GRADUATION_CLAIMED");
  }

  lemma BranchStated(group: seq<Observation>, branch: string)
    ensures HasBranch(group, branch) <==> StatesValue(group, MigrationBranch, Text(branch))
  {
    if i :| 0 <= i < |group| && Carries(group[i], MigrationBranch, Text(branch)) {
      assert MigrationBranch in group[i].facts.pump;
    }
    if i :| 0 <= i < |group| && MigrationBranch in group[i].facts.pump && group[i].facts.pump[MigrationBranch] == Text(branch) {
      assert Carries(group[i], MigrationBranch, Text(branch));
    }
  }

  lemma LineageGatePassesExactly(group: seq<Observation>)
    ensures LineageGate(LineageState(group), group).passed <==> LineageAccepted(group)
  {
    LineageStateExactly(group);
    LineageGateEstablishes(LineageState(group), group);
    if !PumpFactConflict(group) {
      GraduationGateExactly(group);
      CurveGateExactly(group);
    }
  }

  /** The group names this text and no other. */
  ghost predicate OneText(group: seq<Observation>, get: Getter, text: string) {
    && (exists i :: 0 <= i < |group| && get(group[i]) == Some(text))
    && forall i :: 0 <= i < |group| && get(group[i]).Some? ==> get(group[i]).value == text
  }

  lemma OneTextExactly(group: seq<Observation>, get: Getter, text: string)
    ensures |Seen(group, get)| <= 1 && Least(group, get) == Some(text) <==> OneText(group, get, text)
  {
    var seen := Seen(group, get);
    if OneText(group, get, text) {
      assert seen == {text};
    }
    if |seen| <= 1 && Least(group, get) == Some(text) {
      forall i | 0 <= i < |group| && get(group[i]).Some? ensures get(group[i]).value == text {
        assert get(group[i]).value in seen;
        AtMostOne(seen, text, get(group[i]).value);
      }
    }
  }

  /** One exact pool of the mint alone, whose base is the mint, with one pool program, one allowed quote
      and one supported token program. */
  ghost predicate ExactPool(observations: seq<Observation>, mint: string, pool: string, program: string, quote: string, token: string) {
    var group := GroupOf(observations, mint);
    && PoolNamed(group, mint, pool, program, quote)
    && (exists i :: 0 <= i < |group| && group[i].tokenProgram == Some(token))
    && (forall i :: 0 <= i < |group| && group[i].tokenProgram.Some? ==> group[i].tokenProgram.value == token)
    && quote in {"So11111111111111111111111111111111111111112", "EPjFWdd5AufqSSqeM2qN1xzybapC8G4wEGGkZwyTDt1v"}
    && token in {"TokenkegQfeZyiNwAJbNbGKPFXCWuBvf9Ss623VQ5DA", "TokenzQdBNbLqP5VEhdkAS6EPFLC1PHnBqCXEpPxuEb"}
    && PoolIsAlone(observations, mint, pool)
  }

  /** The observations that name a pool name this one; each of program, base and quote is named by one
      of them, and by none otherwise. */
  ghost predicate PoolNamed(group: seq<Observation>, mint: string, pool: string, program: string, quote: string) {
    && (exists i :: 0 <= i < |group| && group[i].pool.Some?)
    && (exists i :: 0 <= i < |group| && group[i].pool.Some? && group[i].poolProgram.Some?)
    && (exists i :: 0 <= i < |group| && group[i].pool.Some? && group[i].baseMint.Some?)
    && (exists i :: 0 <= i < |group| && group[i].pool.Some? && group[i].quoteMint.Some?)
    && forall i :: 0 <= i < |group| && group[i].pool.Some? ==>
                     && group[i].pool.value == pool && (group[i].poolProgram.Some? ==> group[i].poolProgram.value == program)
                     && (group[i].baseMint.Some? ==> group[i].baseMint.value == mint)
                     && (group[i].quoteMint.Some? ==> group[i].quoteMint.value == quote)
  }

  lemma TextsNamed(group: seq<Observation>, mint: string, pool: string, program: string, quote: string)
    ensures OneText(group, PoolOf, pool) && OneText(group, ProgramOf, program) && OneText(group, BaseOf, mint) && OneText(group, QuoteOf, quote)
            <==> PoolNamed(group, mint, pool, program, quote)
  {
    PoolText(group, pool);
    ProgramText(group, program);
    BaseText(group, mint);
    QuoteText(group, quote);
  }

  lemma PoolText(group: seq<Observation>, pool: string)
    ensures OneText(group, PoolOf, pool)
            <==> && (exists i :: 0 <= i < |group| && group[i].pool.Some?)
                 && forall i :: 0 <= i < |group| && group[i].pool.Some? ==> group[i].pool.value == pool
  {
    assert forall i :: 0 <= i < |group| ==> PoolOf(group[i]) == group[i].pool;
  }

  lemma ProgramText(group: seq<Observation>, program: string)
    ensures OneText(group, ProgramOf, program)
            <==> && (exists i :: 0 <= i < |group| && group[i].pool.Some? && group[i].poolProgram.Some?)
                 && forall i :: 0 <= i < |group| && group[i].pool.Some? && group[i].poolProgram.Some? ==> group[i].poolProgram.value == program
  {
    assert forall i :: 0 <= i < |group| ==> ProgramOf(group[i]) == if group[i].pool.Some? then group[i].poolProgram else None;
  }

  lemma BaseText(group: seq<Observation>, mint: string)
    ensures OneText(group, BaseOf, mint)
            <==> && (exists i :: 0 <= i < |group| && group[i].pool.Some? && group[i].baseMint.Some?)
                 && forall i :: 0 <= i < |group| && group[i].pool.Some? && group[i].baseMint.Some? ==> group[i].baseMint.value == mint
  {
    assert forall i :: 0 <= i < |group| ==> BaseOf(group[i]) == if group[i].pool.Some? then group[i].baseMint else None;
  }

  lemma QuoteText(group: seq<Observation>, quote: string)
    ensures OneText(group, QuoteOf, quote)
            <==> && (exists i :: 0 <= i < |group| && group[i].pool.Some? && group[i].quoteMint.Some?)
                 && forall i :: 0 <= i < |group| && group[i].pool.Some? && group[i].quoteMint.Some? ==> group[i].quoteMint.value == quote
  {
    assert forall i :: 0 <= i < |group| ==> QuoteOf(group[i]) == if group[i].pool.Some? then group[i].quoteMint else None;
  }

  lemma TokenText(group: seq<Observation>, token: string)
    ensures OneText(group, TokenProgramOf, token)
            <==> && (exists i :: 0 <= i < |group| && group[i].tokenProgram == Some(token))
                 && forall i :: 0 <= i < |group| && group[i].tokenProgram.Some? ==> group[i].tokenProgram.value == token
  {
    assert forall i :: 0 <= i < |group| ==> TokenProgramOf(group[i]) == group[i].tokenProgram;
  }

  predicate PoolIsAlone(observations: seq<Observation>, mint: string, pool: string) {
    forall o :: o in observations && o.pool == Some(pool) && o.mint.Some? ==> o.mint.value == mint
  }

  lemma PoolSharedExactly(observations: seq<Observation>, mint: string, pool: string)
    requires OneText(GroupOf(observations, mint), PoolOf, pool)
    ensures Seen(GroupOf(observations, mint), PoolOf) * CrossMintPools(observations) == {} <==> PoolIsAlone(observations, mint, pool)
  {
    var seen := Seen(GroupOf(observations, mint), PoolOf);
    assert seen == {pool};
    PoolIsObserved(observations, mint, pool);
    if pool in CrossMintPools(observations) {
      SharedPool(observations, mint, pool);
    } else {
      UnsharedPool(observations, mint, pool);
    }
  }

  lemma SharedPool(observations: seq<Observation>, mint: string, pool: string)
    requires |PoolMints(observations, pool)| > 1
    ensures !PoolIsAlone(observations, mint, pool)
  {
    var mints := PoolMints(observations, pool);
    if mints <= {mint} {
      SubsetIsSmaller(mints, {mint});
    }
    var other :| other in mints && other != mint;
    var i :| 0 <= i < |observations| && observations[i].mint == Some(other) && observations[i].pool == Some(pool);
    assert observations[i] in observations;
  }

  lemma UnsharedPool(observations: seq<Observation>, mint: string, pool: string)
    requires |PoolMints(observations, pool)| <= 1 && mint in PoolMints(observations, pool)
    ensures PoolIsAlone(observations, mint, pool)
  {
    var mints := PoolMints(observations, pool);
    forall o | o in observations && o.pool == Some(pool) && o.mint.Some? ensures o.mint.value == mint {
      var i :| 0 <= i < |observations| && observations[i] == o;
      assert o.mint.value in mints;
      AtMostOne(mints, mint, o.mint.value);
    }
  }

  lemma {:induction false} FreshExactly(group: seq<Observation>, cutoff: int)
    requires group != []
    ensures EarliestExpiry(group) > cutoff <==> forall i :: 0 <= i < |group| ==> group[i].expiresAt > cutoff
    ensures exists i :: 0 <= i < |group| && EarliestExpiry(group) == group[i].expiresAt
    ensures forall i :: 0 <= i < |group| ==> EarliestExpiry(group) <= group[i].expiresAt
  {
    if |group| > 1 {
      var front := group[..|group| - 1];
      FreshExactly(front, cutoff);
      var i :| 0 <= i < |front| && EarliestExpiry(front) == front[i].expiresAt;
      assert group[i] == front[i];
      assert forall k :: 0 <= k < |front| ==> front[k] == group[k];
    }
  }

  /** The five identity texts, each named at most once over, and no pool shared with another mint. */
  lemma MergedExactly(group: seq<Observation>, crossPools: set<string>, mint: string, pool: string, program: string, quote: string, token: string)
    ensures var id := IdentityOf(group, crossPools);
            && id.status == IdentityMerged && PoolQuoteComplete(id, mint)
            && id.pool == Some(pool) && id.poolProgram == Some(program) && id.quoteMint == Some(quote) && id.tokenProgram == Some(token)
            <==> && !Conflicted(group, crossPools)
                 && Least(group, PoolOf) == Some(pool) && Least(group, ProgramOf) == Some(program) && Least(group, BaseOf) == Some(mint)
                 && Least(group, QuoteOf) == Some(quote) && Least(group, TokenProgramOf) == Some(token)
                 && quote in {WRAPPED_SOL, USDC} && token in {SPL_TOKEN_PROGRAM, TOKEN_2022_PROGRAM}
  {
  }

  /** The identity of a mint is complete exactly when its observations name one exact pool. */
  lemma IdentityExactly(observations: seq<Observation>, mint: string, pool: string, program: string, quote: string, token: string)
    ensures var id := IdentityOf(GroupOf(observations, mint), CrossMintPools(observations));
            && id.status == IdentityMerged && PoolQuoteComplete(id, mint)
            && id.pool == Some(pool) && id.poolProgram == Some(program) && id.quoteMint == Some(quote) && id.tokenProgram == Some(token)
            <==> ExactPool(observations, mint, pool, program, quote, token)
  {
    var group := GroupOf(observations, mint);
    MergedExactly(group, CrossMintPools(observations), mint, pool, program, quote, token);
    OneTextExactly(group, PoolOf, pool);
    OneTextExactly(group, ProgramOf, program);
    OneTextExactly(group, BaseOf, mint);
    OneTextExactly(group, QuoteOf, quote);
    OneTextExactly(group, TokenProgramOf, token);
    TextsNamed(group, mint, pool, program, quote);
    TokenText(group, token);
    if OneText(group, PoolOf, pool) {
      PoolSharedExactly(observations, mint, pool);
    }
  }

  /** What a stage asks of the observations of a merged identity. */
  ghost predicate StageHolds(stage: Stage, group: seq<Observation>, mint: string, pool: string, cutoff: int)
    requires group != []
  {
    && (stage != LineageValid ==> StatedPass(group, stage))
    && (stage == ChainMintValid ==> MintEvidenceExact(group, mint))
    && (stage == PoolQuoteValid ==> PoolEvidenceExact(group, pool))
    && (stage == MarketFresh ==> !Stale(group, cutoff))
    && (stage == LineageValid ==> LineageAccepted(group))
  }

  lemma StagePassesExactly(stage: Stage, group: seq<Observation>, mint: string, id: Identity, cutoff: int)
    requires group != [] && id.status == IdentityMerged && PoolQuoteComplete(id, mint)
    ensures StageGate(stage, group, mint, id, cutoff).passed <==> StageHolds(stage, group, mint, id.pool.value, cutoff)
  {
    CategoricalPassesExactly(group, stage);
    if stage == ChainMintValid {
      MintGatePassesExactly(group, mint);
    } else if stage == PoolQuoteValid {
      PoolGatePassesExactly(group, id.pool.value);
    } else if stage == LineageValid {
      LineageGatePassesExactly(group);
    }
  }

  lemma EveryStageListed(stage: Stage)
    ensures stage in STAGES
  {
    assert STAGES[0] == ChainMintValid && STAGES[1] == TokenProgramValid && STAGES[2] == IdentityAvailable && STAGES[3] == PoolQuoteValid
        && STAGES[4] == MarketFresh && STAGES[5] == AgeValid && STAGES[6] == HolderAcceptable && STAGES[7] == SafetyAcceptable
        && STAGES[8] == LiquidityTradeabilityValid && STAGES[9] == RouteTradeabilityValid && STAGES[10] == LineageValid;
  }

  lemma AllGates(gates: Gates)
    ensures (forall i :: 0 <= i < |STAGES| ==> gates(STAGES[i]).passed) <==> forall stage :: gates(stage).passed
  {
    if forall i :: 0 <= i < |STAGES| ==> gates(STAGES[i]).passed {
      forall stage: Stage ensures gates(stage).passed {
        EveryStageListed(stage);
      }
    }
  }

  /** What makes a mint admissible, read off its observations alone. */
  ghost predicate Admissible(observations: seq<Observation>, mint: string, cutoff: int, pool: string, program: string, quote: string, token: string) {
    var group := GroupOf(observations, mint);
    && ExactPool(observations, mint, pool, program, quote, token)
    && (forall stage :: stage != LineageValid ==> StatedPass(group, stage))
    && MintEvidenceExact(group, mint) && PoolEvidenceExact(group, pool)
    && (forall i :: 0 <= i < |group| ==> group[i].expiresAt > cutoff && !group[i].sourceStale)
    && LineageAccepted(group)
  }

  lemma FreshGroup(group: seq<Observation>, cutoff: int)
    requires group != []
    ensures !Stale(group, cutoff) <==> forall i :: 0 <= i < |group| ==> (group[i].expiresAt > cutoff && !group[i].sourceStale)
  {
    FreshExactly(group, cutoff);
  }

  lemma EachStage(stated: Stage -> bool, chain: bool, pool: bool, recent: bool, lineage: bool)
    ensures (forall stage :: && (stage != LineageValid ==> stated(stage)) && (stage == ChainMintValid ==> chain) && (stage == PoolQuoteValid ==> pool)
                             && (stage == MarketFresh ==> recent) && (stage == LineageValid ==> lineage))
            <==> (forall stage :: stage != LineageValid ==> stated(stage)) && chain && pool && recent && lineage
  {
    if !(chain && pool && recent && lineage) {
      var stage := if !chain then ChainMintValid else if !pool then PoolQuoteValid else if !recent then MarketFresh else LineageValid;
      assert stated(stage) || !stated(stage);
    }
  }

  ghost predicate AllStagesHold(group: seq<Observation>, mint: string, pool: string, cutoff: int)
    requires group != []
  {
    forall stage :: StageHolds(stage, group, mint, pool, cutoff)
  }

  lemma EveryStageHolds(group: seq<Observation>, mint: string, pool: string, cutoff: int)
    requires group != []
    ensures AllStagesHold(group, mint, pool, cutoff)
            <==> && (forall stage :: stage != LineageValid ==> StatedPass(group, stage))
                 && MintEvidenceExact(group, mint) && PoolEvidenceExact(group, pool) && !Stale(group, cutoff) && LineageAccepted(group)
  {
    ghost var stated: Stage -> bool := stage => StatedPass(group, stage);
    ghost var chain, target, recent, lineage := MintEvidenceExact(group, mint), PoolEvidenceExact(group, pool), !Stale(group, cutoff), LineageAccepted(group);
    EachStage(stated, chain, target, recent, lineage);
    assert forall stage :: stated(stage) <==> StatedPass(group, stage);
    forall stage: Stage
      ensures StageHolds(stage, group, mint, pool, cutoff)
              <==> && (stage != LineageValid ==> stated(stage)) && (stage == ChainMintValid ==> chain)
                   && (stage == PoolQuoteValid ==> target) && (stage == MarketFresh ==> recent) && (stage == LineageValid ==> lineage)
    {
    }
  }

  lemma MergedGates(group: seq<Observation>, mint: string, id: Identity, cutoff: int, gates: Gates)
    requires group != [] && id.status == IdentityMerged && PoolQuoteComplete(id, mint) && gates == GatesOf(group, mint, id, cutoff)
    ensures (forall stage :: gates(stage).passed) <==> AllStagesHold(group, mint, id.pool.value, cutoff)
  {
    var pool := id.pool.value;
    forall stage: Stage ensures gates(stage).passed <==> StageHolds(stage, group, mint, pool, cutoff) {
      StagePassesExactly(stage, group, mint, id, cutoff);
    }
    if AllStagesHold(group, mint, pool, cutoff) {
      forall stage: Stage ensures gates(stage).passed {
        assert StageHolds(stage, group, mint, pool, cutoff);
      }
    }
    if forall stage :: gates(stage).passed {
      forall stage: Stage ensures StageHolds(stage, group, mint, pool, cutoff) {
        assert gates(stage).passed;
      }
    }
  }

  lemma AdmittedWithIdentity(group: seq<Observation>, mint: string, id: Identity, cutoff: int, gates: Gates)
    requires group != [] && gates == GatesOf(group, mint, id, cutoff)
    ensures (forall i :: 0 <= i < |STAGES| ==> gates(STAGES[i]).passed)
            <==> id.status == IdentityMerged && PoolQuoteComplete(id, mint) && AllStagesHold(group, mint, id.pool.value, cutoff)
  {
    AllGates(gates);
    if id.status == IdentityMerged && PoolQuoteComplete(id, mint) {
      MergedGates(group, mint, id, cutoff, gates);
    } else {
      GatesEstablish(group, mint, id, cutoff);
      assert !gates(IdentityAvailable).passed || !gates(PoolQuoteValid).passed;
    }
  }

  lemma AdmissibleStages(observations: seq<Observation>, mint: string, cutoff: int, pool: string, program: string, quote: string, token: string)
    requires GroupOf(observations, mint) != []
    ensures Admissible(observations, mint, cutoff, pool, program, quote, token)
            <==> ExactPool(observations, mint, pool, program, quote, token) && AllStagesHold(GroupOf(observations, mint), mint, pool, cutoff)
  {
    var group := GroupOf(observations, mint);
    FreshGroup(group, cutoff);
    EveryStageHolds(group, mint, pool, cutoff);
  }

  /** Exact: a mint is admitted, under one pool, program, quote and token program, exactly when its
      observations name that pool alone, state a PASS and nothing else for every stage but the lineage,
      are about this mint and pool, are fresh, and prove the lineage they claim. */
  lemma AdmittedOnObservations(observations: seq<Observation>, mint: string, cutoff: int, pool: string, program: string, quote: string, token: string)
    requires GroupOf(observations, mint) != []
    ensures var c := CandidateOf(observations, mint, cutoff);
            && c.Admitted() && c.pool == Some(pool) && c.poolProgram == Some(program) && c.quoteMint == Some(quote) && c.tokenProgram == Some(token)
            <==> Admissible(observations, mint, cutoff, pool, program, quote, token)
  {
    var group := GroupOf(observations, mint);
    var id := IdentityOf(group, CrossMintPools(observations));
    AdmittedExactly(observations, mint, cutoff);
    AdmittedWithIdentity(group, mint, id, cutoff, GatesOf(group, mint, id, cutoff));
    IdentityExactly(observations, mint, pool, program, quote, token);
    AdmissibleStages(observations, mint, cutoff, pool, program, quote, token);
  }

  ghost predicate IsAdmissible(observations: seq<Observation>, mint: string, cutoff: int) {
    exists pool, program, quote, token :: Admissible(observations, mint, cutoff, pool, program, quote, token)
  }

  lemma AdmittedExactlyWhenAdmissible(observations: seq<Observation>, mint: string, cutoff: int)
    requires GroupOf(observations, mint) != []
    ensures CandidateOf(observations, mint, cutoff).Admitted() <==> IsAdmissible(observations, mint, cutoff)
  {
    var c := CandidateOf(observations, mint, cutoff);
    if c.Admitted() {
      AdmissionIsSound(observations, mint, cutoff);
      AdmittedOnObservations(observations, mint, cutoff, c.pool.value, c.poolProgram.value, c.quoteMint.value, c.tokenProgram.value);
    }
    if pool, program, quote, token :| Admissible(observations, mint, cutoff, pool, program, quote, token) {
      AdmittedOnObservations(observations, mint, cutoff, pool, program, quote, token);
    }
  }

  lemma CandidatesAreAdmissible(observations: seq<Observation>, capacity: nat, cutoff: int)
    ensures var candidates := Candidates(observations, capacity, cutoff);
            forall i :: 0 <= i < |candidates| ==> (candidates[i].Admitted() <==> IsAdmissible(observations, candidates[i].mint, cutoff))
  {
    var mints, candidates := EvaluatedMints(observations, capacity), Candidates(observations, capacity, cutoff);
    MintsAreSeen(observations, capacity);
    forall i | 0 <= i < |candidates| ensures candidates[i].Admitted() <==> IsAdmissible(observations, candidates[i].mint, cutoff) {
      AdmittedExactlyWhenAdmissible(observations, mints[i], cutoff);
    }
  }

  // ---- The status of an identity ----

  /** Two observations of the group name different texts. */
  ghost predicate Disagree(group: seq<Observation>, get: Getter) {
    exists i, j :: 0 <= i < |group| && 0 <= j < |group| && get(group[i]).Some? && get(group[j]).Some? && get(group[i]) != get(group[j])
  }

  lemma SeenMany(group: seq<Observation>, get: Getter)
    ensures |Seen(group, get)| > 1 <==> Disagree(group, get)
  {
    if Disagree(group, get) {
      var i, j :| 0 <= i < |group| && 0 <= j < |group| && get(group[i]).Some? && get(group[j]).Some? && get(group[i]) != get(group[j]);
      TwoMembers(Seen(group, get), get(group[i]).value, get(group[j]).value);
    }
    if |Seen(group, get)| > 1 {
      var a, b := TwoOf(Seen(group, get));
      SeenDisagree(group, get, a, b);
    }
  }

  lemma TwoMembers(s: set<string>, a: string, b: string)
    requires a in s && b in s && a != b
    ensures |s| > 1
  {
    SubsetIsSmaller({a, b}, s);
  }

  lemma TwoOf(s: set<string>) returns (a: string, b: string)
    requires |s| > 1
    ensures a in s && b in s && a != b
  {
    a :| a in s;
    if s <= {a} {
      SubsetIsSmaller(s, {a});
    }
    b :| b in s && b != a;
  }

  lemma SeenDisagree(group: seq<Observation>, get: Getter, a: string, b: string)
    requires a in Seen(group, get) && b in Seen(group, get) && a != b
    ensures Disagree(group, get)
  {
    var i :| 0 <= i < |group| && get(group[i]) == Some(a);
    var j :| 0 <= j < |group| && get(group[j]) == Some(b);
    assert get(group[i]) != get(group[j]);
  }

  ghost predicate PoolIsShared(observations: seq<Observation>, mint: string) {
    exists o :: o in GroupOf(observations, mint) && o.pool.Some? && !PoolIsAlone(observations, mint, o.pool.value)
  }

  lemma SharedExactly(observations: seq<Observation>, mint: string)
    ensures Seen(GroupOf(observations, mint), PoolOf) * CrossMintPools(observations) != {} <==> PoolIsShared(observations, mint)
  {
    if pool :| pool in Seen(GroupOf(observations, mint), PoolOf) * CrossMintPools(observations) {
      CrossedIsShared(observations, mint, pool);
    }
    if o :| o in GroupOf(observations, mint) && o.pool.Some? && !PoolIsAlone(observations, mint, o.pool.value) {
      NamedIsSeen(GroupOf(observations, mint), o);
      CrossedExactly(observations, mint, o.pool.value);
    }
  }

  lemma CrossedIsShared(observations: seq<Observation>, mint: string, pool: string)
    requires pool in Seen(GroupOf(observations, mint), PoolOf) && pool in CrossMintPools(observations)
    ensures PoolIsShared(observations, mint)
  {
    var group := GroupOf(observations, mint);
    CrossedExactly(observations, mint, pool);
    var i :| 0 <= i < |group| && PoolOf(group[i]) == Some(pool);
    assert group[i] in group;
  }

  lemma NamedIsSeen(group: seq<Observation>, o: Observation)
    requires o in group && o.pool.Some?
    ensures o.pool.value in Seen(group, PoolOf)
  {
    var i :| 0 <= i < |group| && group[i] == o;
    assert PoolOf(group[i]) == Some(o.pool.value);
  }

  lemma CrossedExactly(observations: seq<Observation>, mint: string, pool: string)
    requires pool in Seen(GroupOf(observations, mint), PoolOf)
    ensures pool in CrossMintPools(observations) <==> !PoolIsAlone(observations, mint, pool)
  {
    PoolIsObserved(observations, mint, pool);
    if pool in CrossMintPools(observations) {
      SharedPool(observations, mint, pool);
    } else {
      UnsharedPool(observations, mint, pool);
    }
  }

  /** The identity of a mint, both directions: a conflict when two of its observations disagree on pool,
      program, base, quote or token program, or another mint names one of its pools; merged when there is
      no conflict and a pool, a base and a supported token program are named; incomplete otherwise. */
  lemma IdentityStatusExactly(observations: seq<Observation>, mint: string)
    ensures var group := GroupOf(observations, mint);
            var status := IdentityOf(group, CrossMintPools(observations)).status;
            var conflict := || Disagree(group, PoolOf) || Disagree(group, ProgramOf) || Disagree(group, BaseOf) || Disagree(group, QuoteOf)
                            || Disagree(group, TokenProgramOf) || PoolIsShared(observations, mint);
            && (status == IdentityConflict <==> conflict)
            && (status == IdentityMerged
                <==> !conflict && Least(group, PoolOf).Some? && Least(group, BaseOf).Some? && SupportedProgram(Least(group, TokenProgramOf)))
  {
    var group := GroupOf(observations, mint);
    SeenMany(group, PoolOf);
    SeenMany(group, ProgramOf);
    SeenMany(group, BaseOf);
    SeenMany(group, QuoteOf);
    SeenMany(group, TokenProgramOf);
    SharedExactly(observations, mint);
  }

  // ---- The reason of a gate that fails ----

  /** A failing gate names its one reason, a conflict of two, or the generic reason of its status. */
  lemma PreciseReason(reasons: set<string>, conflict: string, generic: Gate)
    ensures reasons == {} ==> Precise(reasons, conflict, generic) == generic
    ensures forall r :: reasons == {r} ==> Precise(reasons, conflict, generic) == Gate(false, r)
    ensures forall a, b :: a in reasons && b in reasons && a != b ==> Precise(reasons, conflict, generic) == Gate(false, conflict)
  {
    forall a, b | a in reasons && b in reasons && a != b ensures |reasons| > 1 {
      assert {a, b} <= reasons && |{a, b}| == 2;
      SubsetIsSmaller({a, b}, reasons);
    }
  }

  /** The reasons a status gate may name: those of the observations that say FAIL for its stage. */
  lemma ReasonNamed(group: seq<Observation>, stage: Stage, reason: Facts -> string, text: string)
    ensures text in FailureReasons(group, stage, reason)
            <==> text != "" && exists i :: 0 <= i < |group| && SaysStatus(group[i], stage, "FAIL") && reason(group[i].facts) == text
  {
    var get := (o: Observation) =>
      if stage in o.facts.status && o.facts.status[stage] == "FAIL" && reason(o.facts) != "" then Some(reason(o.facts)) else None;
    assert forall i :: 0 <= i < |group| ==>
                         (get(group[i]) == Some(text) <==> text != "" && SaysStatus(group[i], stage, "FAIL") && reason(group[i].facts) == text);
  }

  /** The reasons a rejected lineage may name: those its migration facts state. */
  lemma MigrationReasonNamed(group: seq<Observation>, text: string)
    ensures text in FailureReasonTexts(group) <==> text != "" && StatesValue(group, MigrationFailureReason, Text(text))
  {
    var get := (o: Observation) =>
      if MigrationFailureReason in o.facts.pump && o.facts.pump[MigrationFailureReason].Text? && o.facts.pump[MigrationFailureReason].text != ""
      then Some(o.facts.pump[MigrationFailureReason].text) else None;
    assert forall i :: 0 <= i < |group| ==>
                         (get(group[i]) == Some(text) <==> text != "" && Carries(group[i], MigrationFailureReason, Text(text)));
  }

  /** The first piece of mint evidence that is not about this mint decides: its target, or else its response. */
  lemma {:induction false} MintEvidenceReason(group: seq<Observation>, mint: string, i: nat)
    requires i < |group| && group[i].facts.mintEvidence.Some? && MintEvidenceExact(group[..i], mint)
    requires var e := group[i].facts.mintEvidence.value; e.target != mint || (e.response.Some? && e.response.value != mint)
    ensures MintGate(group, mint)
         == Gate(false, if group[i].facts.mintEvidence.value.target != mint then "MINT_EVIDENCE_MERGE_KEY_MISMATCH" else "MINT_TARGET_MISMATCH")
    decreases |group|
  {
    var front := group[..|group| - 1];
    if i < |front| {
      assert front[..i] == group[..i];
      MintEvidenceReason(front, mint, i);
      MintEvidenceExactly(front, mint);
      assert front[i] == group[i];
    } else {
      MintEvidenceExactly(front, mint);
    }
  }

  /** A failing mint status names the reasons its observations give. */
  lemma MintReasonNamed(group: seq<Observation>, mint: string)
    requires MintEvidenceExact(group, mint) && !StatedPass(group, ChainMintValid)
    ensures MintGate(group, mint) == Precise(FailureReasons(group, ChainMintValid, (f: Facts) => f.mintFailureReason),
                                             "MINT_EVIDENCE_REASON_CONFLICT", CategoricalStatus(group, ChainMintValid))
  {
    MintEvidenceExactly(group, mint);
    CategoricalPassesExactly(group, ChainMintValid);
  }

  /** So does a failing pool status. */
  lemma PoolReasonNamed(group: seq<Observation>, pool: string)
    requires PoolEvidenceExact(group, pool) && !StatedPass(group, PoolQuoteValid)
    ensures PoolStatusGate(group, Some(pool)) == Precise(FailureReasons(group, PoolQuoteValid, (f: Facts) => f.poolFailureReason),
                                                         "POOL_EVIDENCE_REASON_CONFLICT", CategoricalStatus(group, PoolQuoteValid))
  {
    CategoricalPassesExactly(group, PoolQuoteValid);
    assert !PoolTargetMismatch(group, Some(pool));
  }

  /** A rejected lineage names the reasons of its migration facts. */
  lemma LineageReasonNamed(group: seq<Observation>, lineage: Lineage)
    requires !PumpFactConflict(group) && lineage in {ConflictingLineage, UnsupportedLineage}
    ensures LineageGate(lineage, group)
         == Precise(FailureReasonTexts(group), "PUMP_MIGRATION_MULTIPLE_FAILURE_REASONS",
                    Gate(false, if lineage == ConflictingLineage then "CONFLICTING_LINEAGE_REJECTED" else "UNSUPPORTED_LINEAGE_REJECTED"))
  {
  }

  /** What the gates add to a status: an identity that is not merged, an unsupported token program, a pool
      whose target, base or quote is not exact, and stale evidence. */
  lemma StageReasons(group: seq<Observation>, mint: string, id: Identity, cutoff: int)
    requires group != []
    ensures var gates := GatesOf(group, mint, id, cutoff);
            && (id.status == IdentityConflict ==> gates(IdentityAvailable) == Gate(false, "IDENTITY_CONFLICT"))
            && (id.status == IdentityIncomplete ==> gates(IdentityAvailable) == Gate(false, "IDENTITY_INCOMPLETE"))
            && (!SupportedProgram(id.tokenProgram) ==> gates(TokenProgramValid) == Gate(false, "UNSUPPORTED_TOKEN_PROGRAM"))
            && (Stale(group, cutoff) ==> gates(MarketFresh) == Gate(false, "STALE_OR_EXPIRED_EVIDENCE"))
            && (id.pool.Some? && !PoolEvidenceExact(group, id.pool.value) ==> gates(PoolQuoteValid) == Gate(false, "POOL_TARGET_MISMATCH"))
            && (PoolStatusGate(group, id.pool).passed && id.baseMint != Some(mint) ==>
                  gates(PoolQuoteValid) == Gate(false, "BASE_QUOTE_ORIENTATION_MISMATCH"))
            && (PoolStatusGate(group, id.pool).passed && id.baseMint == Some(mint) && !PoolQuoteComplete(id, mint) ==>
                  gates(PoolQuoteValid) == Gate(false, "EXACT_POOL_QUOTE_IDENTITY_REQUIRED"))
  {
    if id.pool.Some? && !PoolEvidenceExact(group, id.pool.value) {
      assert PoolTargetMismatch(group, id.pool);
    }
  }

  /** Why a claimed graduation is not proved: first of all that one of its six facts is missing. */
  lemma GraduationReason(group: seq<Observation>)
    requires !PumpFactConflict(group)
    ensures var whole := States(group, OriginSignature) && States(group, OriginContractHash) && States(group, MigrationSignature)
                         && States(group, MigrationContractHash) && States(group, SwapAccountHash) && States(group, SwapContractHash);
            LineageGate(GraduationConfirmed, group).reason == "PUMP_PROOF_INCOMPLETE" <==> !whole
  {
    assert |"PUMP_PROOF_INCOMPLETE"| == 21 && |"PUMP_EXACT_LINEAGE_PASS"| == 23 && |"PUMP_ORIGIN_CONTRACT_MISMATCH"| == 29;
    assert |"PUMP_MIGRATION_CONTRACT_MISMATCH"| == 32 && |"PUMPSWAP_CONTRACT_MISMATCH"| == 26 && |"PUMP_CANONICAL_POOL_INDEX_REQUIRED"| == 34;
  }

  /** The same for a claimed origin on the bonding curve. */
  lemma CurveReason(group: seq<Observation>)
    requires !PumpFactConflict(group)
    ensures var whole := States(group, OriginSignature) && States(group, OriginContractHash) && States(group, CurveAddress)
                         && States(group, CurveAccountHash) && States(group, CurveContractHash) && States(group, CurveComplete);
            LineageGate(OriginConfirmed, group).reason == "PUMP_BONDING_CURVE_PROOF_INCOMPLETE" <==> !whole
  {
    assert |"PUMP_BONDING_CURVE_PROOF_INCOMPLETE"| == 35 && |"PUMP_EXACT_BONDING_CURVE_LINEAGE_PASS"| == 37;
    assert |"PUMP_BONDING_CURVE_CONTRACT_MISMATCH"| == 36 && |"PUMP_BONDING_CURVE_COMPLETE_REQUIRES_GRADUATION"| == 47;
  }

  /** The stages are listed, and tried, in this order. */
  lemma StagesInOrder(gates: Gates)
    ensures Map(Funnel(gates), (r: StageResult) => r.stage)
         == [ChainMintValid, TokenProgramValid, IdentityAvailable, PoolQuoteValid, MarketFresh, AgeValid, HolderAcceptable,
             SafetyAcceptable, LiquidityTradeabilityValid, RouteTradeabilityValid, LineageValid]
  {
  }
}
