/** The canonical two-or-none selector: one seeded walk over one combined pool. */
module TwoTokenSelection {
  import opened Common
  import opened Ordering
  import opened SeededShuffle

  datatype Provenance = LatestGraduated | PersistedGraduated | OtherProvenance

  datatype Candidate = Candidate(
    mint: string, pair: string, market: string, provenance: Provenance, lifecycle: string)

  datatype Terminal = TwoTokenReady | CoverageInsufficient | CapacityExhausted | HolderSourceBlocked | SelectionNone

  datatype FunnelEntry = FunnelEntry(candidate: Candidate, eligible: bool, reason: string, ordinal: nat)

  datatype Selection = Selection(
    ready: bool,
    terminal: Terminal,
    candidateA: Option<Candidate>,
    candidateB: Option<Candidate>,
    funnel: seq<FunnelEntry>,
    evaluatedCount: nat,
    poolSize: nat)
  {
    function Selected(): seq<Candidate> {
      if candidateA.None? || candidateB.None? then [] else [candidateA.value, candidateB.value]
    }
  }

  datatype Fault = MissingSelectionSeed | InvalidCandidateCap

  /** One seeded digest stream per text domain. */
  type SeededDigest = (string, nat) -> nat

  type Evaluator = Candidate -> (bool, string)

  const COMBINED_DOMAIN := "|CANONICAL_COMBINED_TWO_TOKEN"

  const OUTAGE_PREFIXES: seq<string> := [
    "HOLDER_EVIDENCE_UNAVAILABLE",
    "HOLDER_EVIDENCE_FAILED",
    "HOLDER_EVIDENCE_STALE",
    "HOLDER_EVIDENCE_COLLECTION_FAILED",
    "MISSING_CRITICAL_DATA"]

  predicate IsOutage(reason: string) {
    exists i :: 0 <= i < |OUTAGE_PREFIXES| && OUTAGE_PREFIXES[i] <= reason
  }

  /** A reason names an outage exactly when it starts with one of five texts. */
  lemma OutageExactly(reason: string)
    ensures IsOutage(reason)
            <==> || "HOLDER_EVIDENCE_UNAVAILABLE" <= reason || "HOLDER_EVIDENCE_FAILED" <= reason || "HOLDER_EVIDENCE_STALE" <= reason
                 || "HOLDER_EVIDENCE_COLLECTION_FAILED" <= reason || "MISSING_CRITICAL_DATA" <= reason
  {
    assert OUTAGE_PREFIXES[0] == "HOLDER_EVIDENCE_UNAVAILABLE" && OUTAGE_PREFIXES[1] == "HOLDER_EVIDENCE_FAILED";
    assert OUTAGE_PREFIXES[2] == "HOLDER_EVIDENCE_STALE" && OUTAGE_PREFIXES[3] == "HOLDER_EVIDENCE_COLLECTION_FAILED";
    assert OUTAGE_PREFIXES[4] == "MISSING_CRITICAL_DATA";
  }

  function Key(c: Candidate): (string, string) {
    (Trim(c.mint), Trim(c.pair))
  }

  predicate Named(c: Candidate) {
    Trim(c.mint) != "" && Trim(c.pair) != ""
  }

  function IdentityKey(c: Candidate): seq<string> {
    ["solana-mainnet:" + c.mint, c.market, c.lifecycle]
  }

  predicate Disjoint(a: Candidate, b: Candidate) {
    a.mint != b.mint && a.pair != b.pair
  }

  // ---- Deduplication ----

  /** The first occurrence of every named mint-and-pair key, in arrival order. */
  function Unique(candidates: seq<Candidate>): (r: seq<Candidate>)
    ensures DistinctBy(r, Key)
    ensures forall c :: c in r ==> Named(c) && c in candidates
    ensures forall c :: c in candidates && Named(c) ==> Key(c) in Keys(r)
  {
    if candidates == [] then []
    else
      var front := Unique(candidates[..|candidates| - 1]);
      var c := candidates[|candidates| - 1];
      if !Named(c) || Key(c) in Keys(front) then front
      else
        KeysExtend(front, c);
        front + [c]
  }

  /** The first candidate of an identity stays exactly when mint and pair are both named. */
  lemma {:induction false} FirstStays(candidates: seq<Candidate>, i: nat)
    requires i < |candidates|
    requires forall j :: 0 <= j < i ==> Trim(candidates[j].mint) != Trim(candidates[i].mint) || Trim(candidates[j].pair) != Trim(candidates[i].pair)
    ensures candidates[i] in Unique(candidates) <==> Trim(candidates[i].mint) != "" && Trim(candidates[i].pair) != ""
    decreases |candidates|
  {
    var front := candidates[..|candidates| - 1];
    if i < |front| {
      assert front[i] == candidates[i];
      FirstStays(front, i);
    } else {
      forall c | c in front ensures Key(c) != Key(candidates[i]) {
        var j :| 0 <= j < |front| && front[j] == c;
        assert candidates[j] == c;
      }
      assert Key(candidates[i]) !in Keys(Unique(front));
    }
  }

  function Keys(s: seq<Candidate>): set<(string, string)> {
    set c | c in s :: Key(c)
  }

  lemma KeysExtend(s: seq<Candidate>, c: Candidate)
    ensures Keys(s + [c]) == Keys(s) + {Key(c)}
    ensures DistinctBy(s, Key) && Key(c) !in Keys(s) ==> DistinctBy(s + [c], Key)
  {
    assert forall x :: x in s + [c] <==> x in s || x == c;
    if Key(c) !in Keys(s) {
      forall i | 0 <= i < |s| ensures Key(s[i]) != Key(c) {
        assert s[i] in s;
      }
    }
  }

  method Deduplicate(candidates: seq<Candidate>) returns (unique: seq<Candidate>)
    ensures unique == Unique(candidates)
  {
    unique := [];
    var seen: set<(string, string)> := {};
    for k := 0 to |candidates|
      invariant unique == Unique(candidates[..k])
      invariant seen == Keys(unique)
    {
      assert candidates[..k + 1][..k] == candidates[..k];
      var c := candidates[k];
      if !Named(c) {
        continue;
      }
      if Key(c) in seen {
        continue;
      }
      KeysExtend(unique, c);
      seen := seen + {Key(c)};
      unique := unique + [c];
    }
    assert candidates[..|candidates|] == candidates;
  }

  /** Identity sort, then the seeded shuffle of the combined domain. */
  function DeterministicOrder(candidates: seq<Candidate>, seed: string, digest: SeededDigest): seq<Candidate> {
    SeededOrder(SortBy(candidates, ByKey(IdentityKey)), counter => digest(seed + COMBINED_DOMAIN, counter))
  }

  lemma OrderIsPermutation(candidates: seq<Candidate>, seed: string, digest: SeededDigest)
    ensures multiset(DeterministicOrder(candidates, seed, digest)) == multiset(candidates)
    ensures |DeterministicOrder(candidates, seed, digest)| == |candidates|
    ensures Distinct(candidates) ==> Distinct(DeterministicOrder(candidates, seed, digest))
  {
    var sorted := SortBy(candidates, ByKey(IdentityKey));
    SortIsPermutation(candidates, ByKey(IdentityKey));
    SeededOrderIsPermutation(sorted, counter => digest(seed + COMBINED_DOMAIN, counter));
  }

  /** For one seed the order is a function of the pool alone, not of provider order. */
  lemma OrderIgnoresArrival(a: seq<Candidate>, b: seq<Candidate>, seed: string, digest: SeededDigest)
    requires multiset(a) == multiset(b)
    requires forall c, d :: c in a && d in a && IdentityKey(c) == IdentityKey(d) ==> c == d
    ensures DeterministicOrder(a, seed, digest) == DeterministicOrder(b, seed, digest)
  {
    ByKeyIsComparison(IdentityKey);
    SortIgnoresArrivalOrder(a, b, ByKey(IdentityKey));
  }

  // ---- What a walk over `order` that stops after `limit` evaluations must find ----

  predicate Accepts(evaluate: Evaluator, c: Candidate) {
    evaluate(c).0
  }

  /** i is the first accepted position before `limit`. */
  ghost predicate IsFirst(order: seq<Candidate>, limit: nat, evaluate: Evaluator, i: nat)
    requires limit <= |order|
  {
    i < limit && Accepts(evaluate, order[i]) && forall k :: 0 <= k < i ==> !Accepts(evaluate, order[k])
  }

  /** j is the first accepted position after i that shares neither mint nor pair with i. */
  ghost predicate IsPartner(order: seq<Candidate>, limit: nat, evaluate: Evaluator, i: nat, j: nat)
    requires limit <= |order| && i < limit
  {
    && i < j < limit
    && Accepts(evaluate, order[j]) && Disjoint(order[i], order[j])
    && forall k :: i < k < j ==> !(Accepts(evaluate, order[k]) && Disjoint(order[i], order[k]))
  }

  ghost predicate NoneAccepted(order: seq<Candidate>, limit: nat, evaluate: Evaluator)
    requires limit <= |order|
  {
    forall k :: 0 <= k < limit ==> !Accepts(evaluate, order[k])
  }

  ghost predicate NoPartner(order: seq<Candidate>, limit: nat, evaluate: Evaluator, i: nat)
    requires limit <= |order| && i < limit
  {
    forall k :: i < k < limit ==> !(Accepts(evaluate, order[k]) && Disjoint(order[i], order[k]))
  }

  /** The complete outcome of the walk. */
  ghost predicate IsWalk(order: seq<Candidate>, limit: nat, evaluate: Evaluator, r: Selection)
    requires limit <= |order|
  {
    && r.poolSize == |order|
    && r.evaluatedCount <= limit
    && (r.candidateA.None? <==> NoneAccepted(order, limit, evaluate))
    && (r.candidateA.None? ==> r.candidateB.None? && r.evaluatedCount == limit)
    && (r.candidateA.Some? ==>
          exists i: nat ::
            && IsFirst(order, limit, evaluate, i)
            && r.candidateA.value == order[i]
            && (r.candidateB.None? <==> NoPartner(order, limit, evaluate, i))
            && (r.candidateB.None? ==> r.evaluatedCount == limit)
            && (r.candidateB.Some? ==>
                  && 0 < r.evaluatedCount
                  && IsPartner(order, limit, evaluate, i, r.evaluatedCount - 1)
                  && r.candidateB.value == order[r.evaluatedCount - 1]))
    && (r.ready <==> r.candidateB.Some?)
  }

  ghost predicate SawOutage(order: seq<Candidate>, evaluated: nat, evaluate: Evaluator)
    requires evaluated <= |order|
  {
    exists k :: 0 <= k < evaluated && !Accepts(evaluate, order[k]) && IsOutage(evaluate(order[k]).1)
  }

  /** A shortfall names a source outage first, then an unspent pool, then coverage. */
  ghost predicate TerminalIsHonest(order: seq<Candidate>, limit: nat, evaluate: Evaluator, r: Selection)
    requires limit <= |order| && r.evaluatedCount <= limit
  {
    && (r.terminal == TwoTokenReady <==> r.ready)
    && (r.terminal == HolderSourceBlocked <==> !r.ready && SawOutage(order, r.evaluatedCount, evaluate))
    && (r.terminal == CapacityExhausted <==>
          !r.ready && !SawOutage(order, r.evaluatedCount, evaluate) && r.evaluatedCount < |order|)
    && (r.terminal == SelectionNone <==> order == [])
  }

  /** One funnel entry per evaluation, in walk order. */
  ghost predicate FunnelFollows(order: seq<Candidate>, ops: nat, funnel: seq<FunnelEntry>)
    requires ops <= |order|
  {
    |funnel| == ops && forall k :: 0 <= k < ops ==> funnel[k].candidate == order[k] && funnel[k].ordinal == k + 1
  }

  lemma OutageStep(order: seq<Candidate>, ops: nat, evaluate: Evaluator)
    requires ops < |order|
    ensures SawOutage(order, ops + 1, evaluate)
            <==> SawOutage(order, ops, evaluate) || (!Accepts(evaluate, order[ops]) && IsOutage(evaluate(order[ops]).1))
  {
  }

  /** The state of the walk after `ops` evaluations. */
  ghost predicate Progress(order: seq<Candidate>, ops: nat, evaluate: Evaluator, selected: seq<Candidate>, first: nat) {
    && ops <= |order|
    && |selected| <= 2
    && (selected == [] ==> NoneAccepted(order, ops, evaluate))
    && (selected != [] ==> IsFirst(order, ops, evaluate, first) && selected[0] == order[first])
    && (|selected| == 1 ==> NoPartner(order, ops, evaluate, first))
    && (|selected| == 2 ==> IsPartner(order, ops, evaluate, first, ops - 1) && selected[1] == order[ops - 1])
  }

  lemma ProgressStep(order: seq<Candidate>, ops: nat, evaluate: Evaluator, selected: seq<Candidate>, first: nat)
    requires ops < |order| && |selected| < 2 && Progress(order, ops, evaluate, selected, first)
    ensures var c := order[ops];
            if !Accepts(evaluate, c) || (selected != [] && !Disjoint(selected[0], c))
            then Progress(order, ops + 1, evaluate, selected, first)
            else Progress(order, ops + 1, evaluate, selected + [c], if selected == [] then ops else first)
  {
  }

  lemma ProgressIsWalk(order: seq<Candidate>, limit: nat, ops: nat, evaluate: Evaluator, selected: seq<Candidate>, first: nat, r: Selection)
    requires ops <= limit <= |order| && Progress(order, ops, evaluate, selected, first)
    requires |selected| == 2 || ops == limit
    requires r.poolSize == |order| && r.evaluatedCount == ops && r.ready == (|selected| == 2)
    requires r.candidateA == (if |selected| > 0 then Some(selected[0]) else None)
    requires r.candidateB == (if |selected| > 1 then Some(selected[1]) else None)
    ensures IsWalk(order, limit, evaluate, r)
  {
    if selected == [] {
    } else {
      assert IsFirst(order, limit, evaluate, first);
      assert !NoneAccepted(order, limit, evaluate) by { assert Accepts(evaluate, order[first]); }
      if |selected| == 2 {
        assert IsPartner(order, limit, evaluate, first, ops - 1);
        assert !NoPartner(order, limit, evaluate, first) by {
          assert Accepts(evaluate, order[ops - 1]) && Disjoint(order[first], order[ops - 1]);
        }
      }
    }
  }

  function LimitOf(candidateCap: Option<int>, poolSize: nat): int {
    if candidateCap.None? then poolSize else Min(candidateCap.value, poolSize)
  }

  /** The evaluation loop over the already ordered pool. */
  method Walk(order: seq<Candidate>, cap: nat, evaluate: Evaluator) returns (r: Selection)
    ensures IsWalk(order, LimitOf(Some(cap), |order|), evaluate, r)
    ensures TerminalIsHonest(order, LimitOf(Some(cap), |order|), evaluate, r)
    ensures FunnelFollows(order, r.evaluatedCount, r.funnel)
  {
    ghost var limit: nat := Min(cap, |order|);
    var selected: seq<Candidate>, funnel: seq<FunnelEntry> := [], [];
    var ops: nat := 0;
    var sawOutage := false;
    ghost var first: nat := 0;
    while ops < |order| && |selected| < 2 && ops < cap
      invariant ops <= limit
      invariant Progress(order, ops, evaluate, selected, first)
      invariant FunnelFollows(order, ops, funnel)
      invariant sawOutage <==> SawOutage(order, ops, evaluate)
    {
      var candidate := order[ops];
      ProgressStep(order, ops, evaluate, selected, first);
      OutageStep(order, ops, evaluate);
      var (ok, reason) := evaluate(candidate);
      ops := ops + 1;
      if !ok && IsOutage(reason) {
        sawOutage := true;
      }
      if ok && selected != [] && !Disjoint(selected[0], candidate) {
        funnel := funnel + [FunnelEntry(candidate, false, "DUPLICATE_MINT_OR_PAIR", ops)];
        continue;
      }
      funnel := funnel + [FunnelEntry(candidate, ok, reason, ops)];
      if ok {
        if selected == [] {
          first := ops - 1;
        }
        selected := selected + [candidate];
      }
    }
    var capReached := ops >= cap && |selected| < 2 && ops < |order|;
    var terminal :=
      if |selected| == 2 then TwoTokenReady
      else if sawOutage then HolderSourceBlocked
      else if capReached then CapacityExhausted
      else if selected == [] then (if order == [] then SelectionNone else CoverageInsufficient)
      else CoverageInsufficient;
    r := Selection(
      |selected| == 2,
      terminal,
      if |selected| > 0 then Some(selected[0]) else None,
      if |selected| > 1 then Some(selected[1]) else None,
      funnel, ops, |order|);
    ProgressIsWalk(order, limit, ops, evaluate, selected, first, r);
  }

  method SelectTwoCandidates(
    candidates: seq<Candidate>, seed: string, digest: SeededDigest, evaluate: Evaluator, candidateCap: Option<int>)
    returns (result: Result<Selection, Fault>)
    ensures result == Err(InvalidCandidateCap) <==> candidateCap.Some? && candidateCap.value < 0
    ensures result == Err(MissingSelectionSeed) <==>
            !(candidateCap.Some? && candidateCap.value < 0) && Trim(seed) == ""
    ensures result.Ok? ==>
              var order := DeterministicOrder(Unique(candidates), seed, digest);
              var limit := LimitOf(candidateCap, |order|);
              && 0 <= limit <= |order|
              && IsWalk(order, limit, evaluate, result.value)
              && TerminalIsHonest(order, limit, evaluate, result.value)
              && FunnelFollows(order, result.value.evaluatedCount, result.value.funnel)
  {
    if candidateCap.Some? && candidateCap.value < 0 {
      return Err(InvalidCandidateCap);
    }
    var unique := Deduplicate(candidates);
    if Trim(seed) == "" {
      return Err(MissingSelectionSeed);
    }
    var order := DeterministicOrder(unique, seed, digest);
    var r := Walk(order, if candidateCap.None? then |order| else candidateCap.value, evaluate);
    return Ok(r);
  }

  // ---- Consequences ----

  /** Two or none: the public view has both slots exactly when the selection is ready, the two
      tokens share neither mint nor pair, and both were accepted. */
  lemma TwoOrNone(order: seq<Candidate>, limit: nat, evaluate: Evaluator, r: Selection)
    requires limit <= |order| && IsWalk(order, limit, evaluate, r)
    ensures |r.Selected()| == 2 <==> r.ready
    ensures |r.Selected()| == 0 <==> !r.ready
    ensures r.ready ==> Disjoint(r.Selected()[0], r.Selected()[1])
    ensures forall c :: c in r.Selected() ==> c in order && Accepts(evaluate, c)
  {
  }

  /** Within the pool, a mint names one pair and a pair names one mint. */
  predicate MintAndPairDetermineEachOther(order: seq<Candidate>) {
    forall i, j :: 0 <= i < |order| && 0 <= j < |order| ==> (order[i].mint == order[j].mint <==> order[i].pair == order[j].pair)
  }

  ghost predicate LawfulPairWithin(order: seq<Candidate>, limit: nat, evaluate: Evaluator, i: nat, j: nat)
    requires limit <= |order|
  {
    i < j < limit && Accepts(evaluate, order[i]) && Accepts(evaluate, order[j]) && Disjoint(order[i], order[j])
  }

  /** The greedy walk finds two tokens exactly when some accepted candidate within the cap is
      disjoint from the first accepted one. */
  lemma ReadyExactlyWhenFirstHasPartner(order: seq<Candidate>, limit: nat, evaluate: Evaluator, r: Selection)
    requires limit <= |order| && IsWalk(order, limit, evaluate, r)
    ensures r.ready <==> exists i: nat, j: nat :: IsFirst(order, limit, evaluate, i) && LawfulPairWithin(order, limit, evaluate, i, j)
  {
    if r.ready {
      var i: nat :| IsFirst(order, limit, evaluate, i) && IsPartner(order, limit, evaluate, i, r.evaluatedCount - 1);
      assert LawfulPairWithin(order, limit, evaluate, i, r.evaluatedCount - 1);
    }
  }

  /** When mint and pair determine each other in a pool of distinct keys, two accepted candidates
      within the cap are enough, and the greedy walk misses no lawful pair. */
  lemma ReadyWhenTwoAccepted(candidates: seq<Candidate>, seed: string, digest: SeededDigest, limit: nat, evaluate: Evaluator, r: Selection)
    requires limit <= |DeterministicOrder(Unique(candidates), seed, digest)|
    requires IsWalk(DeterministicOrder(Unique(candidates), seed, digest), limit, evaluate, r)
    requires MintAndPairDetermineEachOther(DeterministicOrder(Unique(candidates), seed, digest))
    ensures var order := DeterministicOrder(Unique(candidates), seed, digest);
            r.ready <==> exists i, j :: 0 <= i < j < limit && Accepts(evaluate, order[i]) && Accepts(evaluate, order[j])
  {
    var order := DeterministicOrder(Unique(candidates), seed, digest);
    KeysStayDistinct(candidates, seed, digest);
    if r.ready {
      var i: nat :| IsFirst(order, limit, evaluate, i) && IsPartner(order, limit, evaluate, i, r.evaluatedCount - 1);
      assert Accepts(evaluate, order[i]) && Accepts(evaluate, order[r.evaluatedCount - 1]);
    }
    if i, j :| 0 <= i < j < limit && Accepts(evaluate, order[i]) && Accepts(evaluate, order[j]) {
      var f: nat :| IsFirst(order, limit, evaluate, f) && (r.candidateB.None? <==> NoPartner(order, limit, evaluate, f));
      assert f <= i;
      assert Key(order[f]) != Key(order[j]);
      assert order[f].mint != order[j].mint;
      assert Disjoint(order[f], order[j]);
    }
  }

  lemma KeysStayDistinct(candidates: seq<Candidate>, seed: string, digest: SeededDigest)
    ensures DistinctBy(DeterministicOrder(Unique(candidates), seed, digest), Key)
  {
    var unique := Unique(candidates);
    OrderIsPermutation(unique, seed, digest);
    PermutationDistinctBy(unique, DeterministicOrder(unique, seed, digest), Key);
  }

  /** Without that condition the greedy walk can end empty-handed although a lawful pair is in
      the pool: the first accepted candidate overlaps both members of the only lawful pair. */
  lemma GreedyCanMissALawfulPair()
    ensures exists order: seq<Candidate>, evaluate: Evaluator, r: Selection ::
              && IsWalk(order, |order|, evaluate, r)
              && !r.ready
              && exists i: nat, j: nat :: LawfulPairWithin(order, |order|, evaluate, i, j)
  {
    var a := Candidate("mint1", "pair1", "", LatestGraduated, "");
    var b := Candidate("mint1", "pair2", "", LatestGraduated, "");
    var c := Candidate("mint2", "pair1", "", LatestGraduated, "");
    var order := [a, b, c];
    var evaluate: Evaluator := x => (true, "ELIGIBLE");
    var r := Selection(false, CoverageInsufficient, Some(a), None, [], 3, 3);
    assert "mint1"[4] != "mint2"[4] && "pair1"[4] != "pair2"[4];
    assert IsFirst(order, 3, evaluate, 0);
    assert NoPartner(order, 3, evaluate, 0);
    assert IsWalk(order, 3, evaluate, r);
    assert LawfulPairWithin(order, 3, evaluate, 1, 2);
  }

  /** Whatever the seed, each order of a pool arises from some digest. */
  lemma AnyOrderIsPossible(candidates: seq<Candidate>, seed: string, order: seq<Candidate>) returns (digest: SeededDigest)
    requires Distinct(candidates) && multiset(order) == multiset(candidates)
    ensures DeterministicOrder(candidates, seed, digest) == order
  {
    var sorted := SortBy(candidates, ByKey(IdentityKey));
    SortIsPermutation(candidates, ByKey(IdentityKey));
    PermutationDistinct(candidates, sorted);
    var choices := EveryOrderArises(sorted, order);
    digest := (text, counter) => DigestOf(choices)(counter);
    DigestDraws(|sorted|, choices, counter => digest(seed + COMBINED_DOMAIN, counter));
  }

  /** A lawful pair is there, and every walk ends without a selection. */
  ghost predicate MissesAPair(order: seq<Candidate>, evaluate: Evaluator) {
    && (exists i: nat, j: nat :: LawfulPairWithin(order, |order|, evaluate, i, j))
    && forall r :: IsWalk(order, |order|, evaluate, r) ==> !r.ready
  }

  lemma CenterFirst(a: Candidate, b: Candidate, c: Candidate, evaluate: Evaluator)
    requires Accepts(evaluate, a) && Accepts(evaluate, b) && Accepts(evaluate, c)
    requires !Disjoint(a, b) && !Disjoint(a, c) && Disjoint(b, c)
    ensures MissesAPair([a, b, c], evaluate)
  {
    var order := [a, b, c];
    assert Accepts(evaluate, order[0]) && LawfulPairWithin(order, |order|, evaluate, 1, 2);
    forall r | IsWalk(order, |order|, evaluate, r) ensures !r.ready {
      ReadyExactlyWhenFirstHasPartner(order, |order|, evaluate, r);
    }
  }

  /** Three identities, the first of which shares its mint or its pair with each of the others. */
  predicate Star(a: Candidate, b: Candidate, c: Candidate) {
    && Named(a) && Named(b) && Named(c) && Key(a) != Key(b) && Key(a) != Key(c) && Key(b) != Key(c)
    && !Disjoint(a, b) && !Disjoint(a, c) && Disjoint(b, c)
  }

  /** From the inputs on: for any three accepted candidates of that shape, and any seed, there is a
      digest under which the selector ends without a selection although two of them could be selected. */
  lemma SelectorMissesAPair(seed: string, a: Candidate, b: Candidate, c: Candidate, evaluate: Evaluator) returns (digest: SeededDigest)
    requires Star(a, b, c) && Accepts(evaluate, a) && Accepts(evaluate, b) && Accepts(evaluate, c)
    ensures MissesAPair(DeterministicOrder(Unique([a, b, c]), seed, digest), evaluate)
  {
    var pool := [a, b, c];
    UniquePool(a, b, c);
    digest := AnyOrderIsPossible(pool, seed, pool);
    CenterFirst(a, b, c, evaluate);
  }

  lemma LetterIsTrimmed(c: char)
    requires !IsBlank(c)
    ensures Trim([c]) == [c]
  {
  }

  lemma AStar(a: Candidate, b: Candidate, c: Candidate)
    requires a.mint == b.mint == "m" && c.mint == "n" && a.pair == c.pair == "p" && b.pair == "q"
    ensures Star(a, b, c)
  {
    LetterIsTrimmed('m');
    LetterIsTrimmed('n');
    LetterIsTrimmed('p');
    LetterIsTrimmed('q');
    assert "m"[0] != "n"[0] && "p"[0] != "q"[0];
  }

  lemma UniqueNext(front: seq<Candidate>, c: Candidate)
    requires Unique(front) == front && Named(c) && Key(c) !in Keys(front)
    ensures Unique(front + [c]) == front + [c] && Keys(front + [c]) == Keys(front) + {Key(c)}
  {
    assert (front + [c])[..|front|] == front;
    KeysExtend(front, c);
  }

  lemma UniqueTwo(a: Candidate, b: Candidate)
    requires Named(a) && Named(b) && Key(a) != Key(b)
    ensures Unique([a, b]) == [a, b] && Keys([a, b]) == {Key(a), Key(b)}
  {
    var none: seq<Candidate>, one := [], [a];
    assert none + [a] == one && one + [b] == [a, b] && Keys(none) == {};
    UniqueNext(none, a);
    UniqueNext(one, b);
  }

  lemma UniquePool(a: Candidate, b: Candidate, c: Candidate)
    requires Star(a, b, c)
    ensures Unique([a, b, c]) == [a, b, c] && Distinct([a, b, c])
  {
    UniqueTwo(a, b);
    assert [a, b] + [c] == [a, b, c];
    UniqueNext([a, b], c);
  }
}
