/** The greedy quota composer and the separate quota validator it is checked against. */
module QuotaView {
  import opened Common

  const GROUP_F_MINIMUM_CORPUS := 10
  const GROUP_A_TOTAL_CAP := 4

  datatype Bucket =
    | A1 | A2 | A3 | A4
    | B1 | B2 | B3 | B4 | B5
    | C1 | C2 | C3
    | D1 | D2 | D3 | D4
    | E1 | E2
    | F1 | F2 | F3 | F4

  predicate GroupA(b: Bucket) { b in {A1, A2, A3, A4} }

  predicate GroupB(b: Bucket) { b in {B1, B2, B3, B4, B5} }

  predicate GroupD(b: Bucket) { b in {D1, D2, D3, D4} }

  predicate GroupF(b: Bucket) { b in {F1, F2, F3, F4} }

  predicate Winner(b: Bucket) { b == A1 }

  predicate DeadToken(b: Bucket) { b == D1 }

  predicate DecayBucket(b: Bucket) { b in {B2, B4} }

  predicate TrapFailure(b: Bucket) { b in {A2, A3, A4} }

  datatype Lane = WatchOnly | TrackFast | TrackNormal | NoLane

  /** A classified candidate; the bucket is what the classifier derives from its evidence. */
  datatype Candidate = Candidate(
    mint: string, pair: string, traced: bool, sourceFresh: bool, auditOnly: bool, lane: Lane, bucket: Bucket)

  datatype Kind = ActiveTracking | AuditOnly

  datatype Entry = Entry(candidate: Candidate, kind: Kind)

  datatype Reason =
    | NoSourceTrace | MintDuplicate | PairDuplicate | StaleSourceData
    | AuditOnlyContractInvalid | AuditOnlyActiveTrackingBlocked
    | WinnerCapExceeded | BatchQuotaExceeded

  datatype Rejection = Rejection(candidate: Candidate, reason: Reason)

  // ---- Admission to the pool ----

  function MintKey(e: Entry): string { Trim(e.candidate.mint) }

  function PairKey(e: Entry): string { Trim(e.candidate.pair) }

  datatype Pool = Pool(eligible: seq<Entry>, rejected: seq<Rejection>)

  predicate SeenBy(entries: seq<Entry>, key: Entry -> string, k: string) {
    exists i :: 0 <= i < |entries| && key(entries[i]) == k
  }

  function PoolRejection(pool: Pool, c: Candidate, kind: Kind): Option<Reason> {
    if kind == ActiveTracking && c.auditOnly then Some(AuditOnlyActiveTrackingBlocked)
    else if Trim(c.mint) == "" || Trim(c.pair) == "" || !c.traced then Some(NoSourceTrace)
    else if SeenBy(pool.eligible, MintKey, Trim(c.mint)) then Some(MintDuplicate)
    else if SeenBy(pool.eligible, PairKey, Trim(c.pair)) then Some(PairDuplicate)
    else if !c.sourceFresh then Some(StaleSourceData)
    else if kind == AuditOnly && (!c.auditOnly || c.lane != WatchOnly) then Some(AuditOnlyContractInvalid)
    else None
  }

  function Prepared(pool: Pool, c: Candidate, kind: Kind): Pool {
    var reason := PoolRejection(pool, c, kind);
    if reason.Some? then pool.(rejected := pool.rejected + [Rejection(c, reason.value)])
    else pool.(eligible := pool.eligible + [Entry(c, kind)])
  }

  function PreparedAll(pool: Pool, candidates: seq<Candidate>, kind: Kind): Pool
    decreases |candidates|
  {
    if candidates == [] then pool
    else Prepared(PreparedAll(pool, candidates[..|candidates| - 1], kind), candidates[|candidates| - 1], kind)
  }

  function PoolOf(active: seq<Candidate>, audit: seq<Candidate>): Pool {
    PreparedAll(PreparedAll(Pool([], []), active, ActiveTracking), audit, AuditOnly)
  }

  // ---- Greedy composition ----

  function TargetSize(maxItems: nat, eligible: nat): nat {
    Min(maxItems, eligible)
  }

  function GroupALimit(target: nat): nat {
    Min(GROUP_A_TOTAL_CAP, target * 40 / 100)
  }

  function GroupBMinimum(target: nat): nat {
    if target >= 6 then (target * 30 + 99) / 100 else 0
  }

  function Count(entries: seq<Entry>, group: Bucket -> bool): nat {
    if entries == [] then 0
    else Count(entries[..|entries| - 1], group) + if group(entries[|entries| - 1].candidate.bucket) then 1 else 0
  }

  function Take(selected: seq<Entry>, e: Entry, target: nat): seq<Entry> {
    if e !in selected && |selected| < target then selected + [e] else selected
  }

  function TakeFirst(selected: seq<Entry>, choices: seq<Entry>, target: nat): seq<Entry> {
    if choices == [] then selected else Take(selected, choices[0], target)
  }

  /** Takes along a list until a group has reached its limit. */
  function TakeUntil(selected: seq<Entry>, choices: seq<Entry>, target: nat, group: Bucket -> bool, limit: nat): seq<Entry>
    decreases |choices|
  {
    if choices == [] then selected
    else
      var before := TakeUntil(selected, choices[..|choices| - 1], target, group, limit);
      if Count(before, group) >= limit then before else Take(before, choices[|choices| - 1], target)
  }

  function TakeAll(selected: seq<Entry>, choices: seq<Entry>, target: nat): seq<Entry>
    decreases |choices|
  {
    if choices == [] then selected
    else Take(TakeAll(selected, choices[..|choices| - 1], target), choices[|choices| - 1], target)
  }

  function AuditWatch(eligible: seq<Entry>): seq<Entry> { Filter(eligible, (e: Entry) => e.kind == AuditOnly) }

  function AuditD1(eligible: seq<Entry>): seq<Entry> { Filter(AuditWatch(eligible), (e: Entry) => e.candidate.bucket == D1) }

  function ActiveOf(eligible: seq<Entry>): seq<Entry> { Filter(eligible, (e: Entry) => e.kind == ActiveTracking) }

  function Traps(eligible: seq<Entry>): seq<Entry> { Filter(ActiveOf(eligible), (e: Entry) => TrapFailure(e.candidate.bucket)) }

  function Winners(eligible: seq<Entry>): seq<Entry> { Filter(ActiveOf(eligible), (e: Entry) => Winner(e.candidate.bucket)) }

  function NonA(eligible: seq<Entry>): seq<Entry> { Filter(ActiveOf(eligible), (e: Entry) => !GroupA(e.candidate.bucket)) }

  function NonAGroupB(eligible: seq<Entry>): seq<Entry> { Filter(NonA(eligible), (e: Entry) => GroupB(e.candidate.bucket)) }

  function GroupBOrD(eligible: seq<Entry>): seq<Entry> {
    Filter(NonA(eligible), (e: Entry) => GroupB(e.candidate.bucket) || GroupD(e.candidate.bucket))
  }

  function Decay(eligible: seq<Entry>): seq<Entry> { Filter(NonA(eligible), (e: Entry) => DecayBucket(e.candidate.bucket)) }

  function Rest<T>(s: seq<T>): seq<T> {
    if s == [] then [] else s[1..]
  }

  /** The one audit-only candidate a larger batch starts with. */
  function AuditPick(eligible: seq<Entry>, target: nat): seq<Entry> {
    if target >= 6 then
      if AuditD1(eligible) != [] then AuditD1(eligible)[..1]
      else if AuditWatch(eligible) != [] then AuditWatch(eligible)[..1] else []
    else []
  }

  function DecayOrD(eligible: seq<Entry>): seq<Entry> {
    if Decay(eligible) != [] then Decay(eligible) else GroupBOrD(eligible)
  }

  function Opening(eligible: seq<Entry>, target: nat): seq<Entry> {
    var audited := TakeFirst([], AuditPick(eligible, target), target);
    TakeFirst(audited, DecayOrD(eligible), target)
  }

  function WithGroupB(eligible: seq<Entry>, target: nat): seq<Entry> {
    TakeUntil(Opening(eligible, target), NonAGroupB(eligible), target, GroupB, GroupBMinimum(target))
  }

  function Trapped(eligible: seq<Entry>, target: nat): seq<Entry> {
    if GroupALimit(target) > 0 then TakeFirst(WithGroupB(eligible, target), Traps(eligible), target) else WithGroupB(eligible, target)
  }

  function WithFirstA(eligible: seq<Entry>, target: nat): seq<Entry> {
    if GroupALimit(target) > 1 then TakeFirst(Trapped(eligible, target), Winners(eligible), target) else Trapped(eligible, target)
  }

  function Filled(eligible: seq<Entry>, target: nat): seq<Entry> {
    TakeAll(WithFirstA(eligible, target), NonA(eligible), target)
  }

  function MoreTraps(eligible: seq<Entry>, target: nat): seq<Entry> {
    TakeUntil(Filled(eligible, target), Rest(Traps(eligible)), target, GroupA, GroupALimit(target))
  }

  function SecondWinner(eligible: seq<Entry>): seq<Entry> {
    if |Winners(eligible)| > 1 then Winners(eligible)[1..2] else []
  }

  function Selected(eligible: seq<Entry>, target: nat): seq<Entry> {
    TakeUntil(MoreTraps(eligible, target), SecondWinner(eligible), target, GroupA, GroupALimit(target))
  }

  // ---- The validator ----

  datatype Violation =
    | DuplicateMint | DuplicatePair
    | WinnerCapExceeded2 | MissingGroupA | GroupATotalCapExceeded | GroupAShareExceeded | GroupAWithoutTrap
    | MissingD1 | MissingWatchOnly | NoGroupBOrD | MissingGroupB | GroupBShareBelow | MissingDecay
    | GroupFNeedsCorpus | TargetNotFilled

  predicate RawDistinct(items: seq<Entry>, key: Candidate -> string) {
    forall i, j :: 0 <= i < j < |items| ==> key(items[i].candidate) != key(items[j].candidate)
  }

  /** The rules, one by one. */
  predicate Breaks(v: Violation, items: seq<Entry>, minCorpus: nat) {
    var n, a := |items|, Count(items, GroupA);
    match v
    case DuplicateMint => !RawDistinct(items, (c: Candidate) => c.mint)
    case DuplicatePair => !RawDistinct(items, (c: Candidate) => c.pair)
    case WinnerCapExceeded2 => Count(items, Winner) > 2
    case MissingGroupA => n >= 5 && a == 0
    case GroupATotalCapExceeded => a > GROUP_A_TOTAL_CAP
    case GroupAShareExceeded => n > 0 && a * 100 > n * 40
    case GroupAWithoutTrap => a > 0 && Count(items, TrapFailure) == 0
    case MissingD1 => n >= 6 && Count(items, DeadToken) == 0
    case MissingWatchOnly => n >= 6 && !(exists i :: 0 <= i < n && items[i].candidate.lane == WatchOnly)
    case NoGroupBOrD => n >= 6 && Count(items, GroupB) == 0 && Count(items, GroupD) == 0
    case MissingGroupB => n >= 6 && Count(items, GroupB) == 0
    case GroupBShareBelow => n >= 6 && Count(items, GroupB) * 100 < n * 30
    case MissingDecay => n >= 6 && Count(items, DecayBucket) == 0
    case GroupFNeedsCorpus => Count(items, GroupF) > 0 && minCorpus < GROUP_F_MINIMUM_CORPUS
    case TargetNotFilled => false
  }

  function Violations(items: seq<Entry>, minCorpus: nat): set<Violation> {
    set v: Violation | Breaks(v, items, minCorpus)
  }

  // ---- The whole view ----

  predicate Chosen(selected: seq<Entry>, e: Entry) {
    exists i :: 0 <= i < |selected| && selected[i].candidate.mint == e.candidate.mint && selected[i].candidate.pair == e.candidate.pair
  }

  function LeftOver(selected: seq<Entry>, eligible: seq<Entry>): seq<Rejection>
    decreases |eligible|
  {
    if eligible == [] then []
    else
      var last := eligible[|eligible| - 1];
      LeftOver(selected, eligible[..|eligible| - 1])
      + if Chosen(selected, last) then []
        else [Rejection(last.candidate, if last.candidate.bucket == A1 then WinnerCapExceeded else BatchQuotaExceeded)]
  }

  datatype View = View(quotaOk: bool, violations: set<Violation>, selected: seq<Entry>, rejected: seq<Rejection>)

  function ViewOf(active: seq<Candidate>, audit: seq<Candidate>, maxItems: nat): View {
    var pool := PoolOf(active, audit);
    var target := TargetSize(maxItems, |pool.eligible|);
    var selected := Selected(pool.eligible, target);
    Judged(selected, target, pool.rejected + LeftOver(selected, pool.eligible))
  }

  function Judged(selected: seq<Entry>, target: nat, rejected: seq<Rejection>): View {
    var violations := Violations(selected, 0) + if |selected| != target then {TargetNotFilled} else {};
    View(violations == {}, violations, selected, rejected)
  }

  method PrepareAll(start: Pool, candidates: seq<Candidate>, kind: Kind) returns (pool: Pool)
    ensures pool == PreparedAll(start, candidates, kind)
  {
    assert candidates[..|candidates|] == candidates;
    pool := start;
    for i := 0 to |candidates|
      invariant pool == PreparedAll(start, candidates[..i], kind)
    {
      assert candidates[..i + 1][..i] == candidates[..i];
      pool := Prepared(pool, candidates[i], kind);
    }
  }

  lemma {:induction false} LimitStops(selected: seq<Entry>, choices: seq<Entry>, target: nat, group: Bucket -> bool, limit: nat, i: nat, j: nat)
    requires i <= j <= |choices| && Count(TakeUntil(selected, choices[..i], target, group, limit), group) >= limit
    ensures TakeUntil(selected, choices[..j], target, group, limit) == TakeUntil(selected, choices[..i], target, group, limit)
    decreases j
  {
    if i < j {
      LimitStops(selected, choices, target, group, limit, i, j - 1);
      assert choices[..j][..j - 1] == choices[..j - 1];
    }
  }

  method TakeUntilLimit(start: seq<Entry>, choices: seq<Entry>, target: nat, group: Bucket -> bool, limit: nat) returns (selected: seq<Entry>)
    ensures selected == TakeUntil(start, choices, target, group, limit)
  {
    assert choices[..|choices|] == choices;
    selected := start;
    for i := 0 to |choices|
      invariant selected == TakeUntil(start, choices[..i], target, group, limit)
    {
      assert choices[..i + 1][..i] == choices[..i];
      if Count(selected, group) >= limit {
        LimitStops(start, choices, target, group, limit, i, |choices|);
        break;
      }
      selected := Take(selected, choices[i], target);
    }
  }

  method TakeEach(start: seq<Entry>, choices: seq<Entry>, target: nat) returns (selected: seq<Entry>)
    ensures selected == TakeAll(start, choices, target)
  {
    assert choices[..|choices|] == choices;
    selected := start;
    for i := 0 to |choices|
      invariant selected == TakeAll(start, choices[..i], target)
    {
      assert choices[..i + 1][..i] == choices[..i];
      selected := Take(selected, choices[i], target);
    }
  }

  method RejectLeftOver(start: seq<Rejection>, selected: seq<Entry>, eligible: seq<Entry>) returns (rejected: seq<Rejection>)
    ensures rejected == start + LeftOver(selected, eligible)
  {
    assert eligible[..|eligible|] == eligible;
    rejected := start;
    for i := 0 to |eligible|
      invariant rejected == start + LeftOver(selected, eligible[..i])
    {
      assert eligible[..i + 1][..i] == eligible[..i];
      if Chosen(selected, eligible[i]) {
        continue;
      }
      rejected := rejected + [Rejection(eligible[i].candidate, if eligible[i].candidate.bucket == A1 then WinnerCapExceeded else BatchQuotaExceeded)];
    }
  }

  method SelectGreedily(eligible: seq<Entry>, target: nat) returns (selected: seq<Entry>)
    ensures selected == Selected(eligible, target)
  {
    var limit := GroupALimit(target);
    selected := TakeFirst([], AuditPick(eligible, target), target);
    selected := TakeFirst(selected, DecayOrD(eligible), target);
    selected := TakeUntilLimit(selected, NonAGroupB(eligible), target, GroupB, GroupBMinimum(target));
    assert selected == WithGroupB(eligible, target);
    if limit > 0 {
      selected := TakeFirst(selected, Traps(eligible), target);
    }
    if limit > 1 {
      selected := TakeFirst(selected, Winners(eligible), target);
    }
    assert selected == WithFirstA(eligible, target);
    selected := TakeEach(selected, NonA(eligible), target);
    selected := TakeUntilLimit(selected, Rest(Traps(eligible)), target, GroupA, limit);
    selected := TakeUntilLimit(selected, SecondWinner(eligible), target, GroupA, limit);
  }

  /** Composes the view; the batch size must lie between 1 and 10. */
  method BuildClassifierQuotaView(active: seq<Candidate>, audit: seq<Candidate>, maxItems: int) returns (r: Option<View>)
    ensures r.None? <==> maxItems < 1 || maxItems > 10
    ensures r.Some? ==> r.value == ViewOf(active, audit, maxItems)
  {
    if maxItems < 1 || maxItems > 10 {
      return None;
    }
    var pool := PrepareAll(Pool([], []), active, ActiveTracking);
    pool := PrepareAll(pool, audit, AuditOnly);
    var target := TargetSize(maxItems, |pool.eligible|);
    var selected := SelectGreedily(pool.eligible, target);
    var rejected := RejectLeftOver(pool.rejected, selected, pool.eligible);
    return Some(Judged(selected, target, rejected));
  }

  // ---- The pool: distinct identities, nothing lost ----

  function CandidateOf(e: Entry): Candidate { e.candidate }

  function RejectedOf(r: Rejection): Candidate { r.candidate }

  ghost predicate PoolKeyed(pool: Pool) {
    DistinctBy(pool.eligible, MintKey) && DistinctBy(pool.eligible, PairKey)
  }

  lemma {:induction false} PoolStaysKeyed(pool: Pool, candidates: seq<Candidate>, kind: Kind)
    requires PoolKeyed(pool)
    ensures PoolKeyed(PreparedAll(pool, candidates, kind))
    decreases |candidates|
  {
    if candidates != [] {
      PoolStaysKeyed(pool, candidates[..|candidates| - 1], kind);
    }
  }

  function PoolMembers(pool: Pool): multiset<Candidate> {
    multiset(Map(pool.eligible, CandidateOf)) + multiset(Map(pool.rejected, RejectedOf))
  }

  lemma PreparedKeepsMembers(pool: Pool, c: Candidate, kind: Kind)
    ensures PoolMembers(Prepared(pool, c, kind)) == PoolMembers(pool) + multiset{c}
  {
    var reason := PoolRejection(pool, c, kind);
    if reason.Some? {
      MapConcat(pool.rejected, [Rejection(c, reason.value)], RejectedOf);
      assert Map([Rejection(c, reason.value)], RejectedOf) == [c];
    } else {
      MapConcat(pool.eligible, [Entry(c, kind)], CandidateOf);
      assert Map([Entry(c, kind)], CandidateOf) == [c];
    }
  }

  lemma {:induction false} PoolLosesNothing(pool: Pool, candidates: seq<Candidate>, kind: Kind)
    ensures PoolMembers(PreparedAll(pool, candidates, kind)) == PoolMembers(pool) + multiset(candidates)
    decreases |candidates|
  {
    if candidates != [] {
      var front, last := candidates[..|candidates| - 1], candidates[|candidates| - 1];
      assert candidates == front + [last];
      PoolLosesNothing(pool, front, kind);
      PreparedKeepsMembers(PreparedAll(pool, front, kind), last, kind);
    }
  }

  // ---- Exactly which candidates enter the pool ----

  /** Nothing about the candidate by itself keeps it out of the pool. */
  predicate Clean(c: Candidate, kind: Kind) {
    && Trim(c.mint) != "" && Trim(c.pair) != "" && c.traced && c.sourceFresh
    && if kind == ActiveTracking then !c.auditOnly else c.auditOnly && c.lane == WatchOnly
  }

  function EntriesOf(candidates: seq<Candidate>, kind: Kind): seq<Entry> {
    Map(candidates, (c: Candidate) => Entry(c, kind))
  }

  /** The offers that entered, in their order. */
  function Entered(offers: seq<Entry>, entered: seq<bool>): seq<Entry>
    requires |offers| == |entered|
  {
    if offers == [] then []
    else
      Entered(offers[..|offers| - 1], entered[..|entered| - 1])
      + if entered[|entered| - 1] then [offers[|offers| - 1]] else []
  }

  lemma {:induction false} EnteredMembers(offers: seq<Entry>, entered: seq<bool>, e: Entry)
    requires |offers| == |entered|
    ensures e in Entered(offers, entered) <==> exists i :: 0 <= i < |offers| && entered[i] && offers[i] == e
    decreases |offers|
  {
    if offers != [] {
      EnteredMembers(offers[..|offers| - 1], entered[..|entered| - 1], e);
    }
  }

  predicate SharesIdentity(a: Entry, b: Entry) {
    Trim(a.candidate.mint) == Trim(b.candidate.mint) || Trim(a.candidate.pair) == Trim(b.candidate.pair)
  }

  /** An offer enters exactly when it is clean and shares neither mint nor pair with an offer that
      entered before it. */
  ghost predicate FirstComeClean(offers: seq<Entry>, entered: seq<bool>) {
    && |offers| == |entered|
    && forall i :: 0 <= i < |offers| ==> (entered[i] <==> Enters(offers, entered, i))
  }

  predicate Enters(offers: seq<Entry>, entered: seq<bool>, i: nat)
    requires i < |offers| == |entered|
  {
    && Clean(offers[i].candidate, offers[i].kind)
    && forall j :: 0 <= j < i && entered[j] ==> !SharesIdentity(offers[j], offers[i])
  }

  lemma NotRejected(pool: Pool, c: Candidate, kind: Kind)
    ensures PoolRejection(pool, c, kind).None? <==> Clean(c, kind) && forall e :: e in pool.eligible ==> !SharesIdentity(e, Entry(c, kind))
  {
    if PoolRejection(pool, c, kind).None? {
      forall e | e in pool.eligible ensures !SharesIdentity(e, Entry(c, kind)) {
        var i :| 0 <= i < |pool.eligible| && pool.eligible[i] == e;
        assert MintKey(pool.eligible[i]) != Trim(c.mint) && PairKey(pool.eligible[i]) != Trim(c.pair);
      }
    } else if i :| 0 <= i < |pool.eligible| && (MintKey(pool.eligible[i]) == Trim(c.mint) || PairKey(pool.eligible[i]) == Trim(c.pair)) {
      assert SharesIdentity(pool.eligible[i], Entry(c, kind));
    }
  }

  lemma EntersStays(offers: seq<Entry>, entered: seq<bool>, e: Entry, enters: bool, i: nat)
    requires i < |offers| == |entered|
    ensures Enters(offers + [e], entered + [enters], i) <==> Enters(offers, entered, i)
  {
    var all, more := offers + [e], entered + [enters];
    assert forall j :: 0 <= j <= i ==> all[j] == offers[j] && more[j] == entered[j];
  }

  lemma OfferEnters(offers: seq<Entry>, entered: seq<bool>, pool: Pool, c: Candidate, kind: Kind) returns (more: seq<bool>)
    requires FirstComeClean(offers, entered) && pool.eligible == Entered(offers, entered)
    ensures FirstComeClean(offers + [Entry(c, kind)], more)
    ensures Prepared(pool, c, kind).eligible == Entered(offers + [Entry(c, kind)], more)
  {
    var all, enters := offers + [Entry(c, kind)], PoolRejection(pool, c, kind).None?;
    more := entered + [enters];
    NotRejected(pool, c, kind);
    forall e ensures e in pool.eligible <==> exists j :: 0 <= j < |offers| && entered[j] && offers[j] == e {
      EnteredMembers(offers, entered, e);
    }
    forall i | 0 <= i < |all| ensures more[i] <==> Enters(all, more, i) {
      if i < |offers| {
        EntersStays(offers, entered, Entry(c, kind), enters, i);
      } else if enters {
        forall j | 0 <= j < i && more[j] ensures !SharesIdentity(all[j], all[i]) {
          assert offers[j] in pool.eligible;
        }
      }
    }
    assert all[..|offers|] == offers && more[..|offers|] == entered;
  }

  lemma {:induction false} OffersEnter(offers: seq<Entry>, entered: seq<bool>, pool: Pool, candidates: seq<Candidate>, kind: Kind)
    returns (more: seq<bool>)
    requires FirstComeClean(offers, entered) && pool.eligible == Entered(offers, entered)
    ensures FirstComeClean(offers + EntriesOf(candidates, kind), more)
    ensures PreparedAll(pool, candidates, kind).eligible == Entered(offers + EntriesOf(candidates, kind), more)
    decreases |candidates|
  {
    if candidates == [] {
      more := entered;
      assert offers + EntriesOf(candidates, kind) == offers;
    } else {
      var front, last := candidates[..|candidates| - 1], candidates[|candidates| - 1];
      var before := OffersEnter(offers, entered, pool, front, kind);
      more := OfferEnters(offers + EntriesOf(front, kind), before, PreparedAll(pool, front, kind), last, kind);
      assert offers + EntriesOf(candidates, kind) == offers + EntriesOf(front, kind) + [Entry(last, kind)];
    }
  }

  /** The pool of a view: of all active candidates, then all audit-only ones, in order, those that are
      clean for their kind and share neither mint nor pair, trimmed, with one that entered before. */
  lemma PoolExactly(active: seq<Candidate>, audit: seq<Candidate>) returns (entered: seq<bool>)
    ensures var offers := EntriesOf(active, ActiveTracking) + EntriesOf(audit, AuditOnly);
            FirstComeClean(offers, entered) && PoolOf(active, audit).eligible == Entered(offers, entered)
  {
    var none := Pool([], []);
    var first := OffersEnter([], [], none, active, ActiveTracking);
    assert [] + EntriesOf(active, ActiveTracking) == EntriesOf(active, ActiveTracking);
    entered := OffersEnter(EntriesOf(active, ActiveTracking), first, PreparedAll(none, active, ActiveTracking), audit, AuditOnly);
  }

  /** Nothing stale, untraced or misfiled is eligible or selected. */
  lemma SelectedAreClean(active: seq<Candidate>, audit: seq<Candidate>, maxItems: nat)
    ensures forall e :: e in PoolOf(active, audit).eligible ==> Clean(e.candidate, e.kind)
    ensures forall e :: e in ViewOf(active, audit, maxItems).selected ==> Clean(e.candidate, e.kind)
  {
    var offers := EntriesOf(active, ActiveTracking) + EntriesOf(audit, AuditOnly);
    var eligible := PoolOf(active, audit).eligible;
    var entered := PoolExactly(active, audit);
    forall e | e in eligible ensures Clean(e.candidate, e.kind) {
      EnteredMembers(offers, entered, e);
      var i :| 0 <= i < |offers| && entered[i] && offers[i] == e;
      assert Enters(offers, entered, i);
    }
    SelectedIsDrawn(eligible, TargetSize(maxItems, |eligible|));
  }

  /** The reason of a rejection is the first check that fails. */
  lemma RejectedExactly(pool: Pool, c: Candidate, kind: Kind)
    ensures var r := PoolRejection(pool, c, kind);
            var blocked, traced := kind == ActiveTracking && c.auditOnly, Trim(c.mint) != "" && Trim(c.pair) != "" && c.traced;
            var mint, pair := SeenBy(pool.eligible, MintKey, Trim(c.mint)), SeenBy(pool.eligible, PairKey, Trim(c.pair));
            && (r == Some(AuditOnlyActiveTrackingBlocked) <==> blocked)
            && (r == Some(NoSourceTrace) <==> !blocked && !traced)
            && (r == Some(MintDuplicate) <==> !blocked && traced && mint)
            && (r == Some(PairDuplicate) <==> !blocked && traced && !mint && pair)
            && (r == Some(StaleSourceData) <==> !blocked && traced && !mint && !pair && !c.sourceFresh)
            && (r == Some(AuditOnlyContractInvalid)
                <==> && !blocked && traced && !mint && !pair && c.sourceFresh
                     && kind == AuditOnly && (!c.auditOnly || c.lane != WatchOnly))
            && r != Some(WinnerCapExceeded) && r != Some(BatchQuotaExceeded)
  {
  }

  // ---- Selected or rejected, exactly once ----

  ghost predicate DrawnFrom(eligible: seq<Entry>, selected: seq<Entry>, target: nat) {
    Distinct(selected) && |selected| <= target && forall e :: e in selected ==> e in eligible
  }

  lemma TakeKeepsDrawn(eligible: seq<Entry>, selected: seq<Entry>, choices: seq<Entry>, target: nat)
    requires DrawnFrom(eligible, selected, target) && forall e :: e in choices ==> e in eligible
    ensures DrawnFrom(eligible, TakeFirst(selected, choices, target), target)
  {
  }

  lemma {:induction false} TakeAllKeepsDrawn(eligible: seq<Entry>, selected: seq<Entry>, choices: seq<Entry>, target: nat)
    requires DrawnFrom(eligible, selected, target) && forall e :: e in choices ==> e in eligible
    ensures DrawnFrom(eligible, TakeAll(selected, choices, target), target)
    decreases |choices|
  {
    if choices != [] {
      TakeAllKeepsDrawn(eligible, selected, choices[..|choices| - 1], target);
    }
  }

  lemma {:induction false} TakeUntilKeepsDrawn(
    eligible: seq<Entry>, selected: seq<Entry>, choices: seq<Entry>, target: nat, group: Bucket -> bool, limit: nat)
    requires DrawnFrom(eligible, selected, target) && forall e :: e in choices ==> e in eligible
    ensures DrawnFrom(eligible, TakeUntil(selected, choices, target, group, limit), target)
    decreases |choices|
  {
    if choices != [] {
      TakeUntilKeepsDrawn(eligible, selected, choices[..|choices| - 1], target, group, limit);
    }
  }

  lemma OpeningIsDrawn(eligible: seq<Entry>, target: nat)
    ensures DrawnFrom(eligible, Opening(eligible, target), target)
  {
    TakeKeepsDrawn(eligible, [], AuditPick(eligible, target), target);
    TakeKeepsDrawn(eligible, TakeFirst([], AuditPick(eligible, target), target),
                   DecayOrD(eligible), target);
  }

  lemma GroupBIsDrawn(eligible: seq<Entry>, target: nat)
    ensures DrawnFrom(eligible, WithGroupB(eligible, target), target)
  {
    OpeningIsDrawn(eligible, target);
    TakeUntilKeepsDrawn(eligible, Opening(eligible, target), NonAGroupB(eligible), target, GroupB, GroupBMinimum(target));
  }

  lemma TrappedIsDrawn(eligible: seq<Entry>, target: nat)
    ensures DrawnFrom(eligible, Trapped(eligible, target), target)
  {
    GroupBIsDrawn(eligible, target);
    TakeKeepsDrawn(eligible, WithGroupB(eligible, target), Traps(eligible), target);
  }

  lemma FirstAIsDrawn(eligible: seq<Entry>, target: nat)
    ensures DrawnFrom(eligible, WithFirstA(eligible, target), target)
  {
    TrappedIsDrawn(eligible, target);
    TakeKeepsDrawn(eligible, Trapped(eligible, target), Winners(eligible), target);
  }

  /** Whatever is selected is eligible, at most once, and within the target. */
  lemma SelectedIsDrawn(eligible: seq<Entry>, target: nat)
    ensures DrawnFrom(eligible, Selected(eligible, target), target)
  {
    FirstAIsDrawn(eligible, target);
    TakeAllKeepsDrawn(eligible, WithFirstA(eligible, target), NonA(eligible), target);
    RestMembers(Traps(eligible));
    TakeUntilKeepsDrawn(eligible, Filled(eligible, target), Rest(Traps(eligible)), target, GroupA, GroupALimit(target));
    SecondWinnerMembers(eligible);
    TakeUntilKeepsDrawn(eligible, MoreTraps(eligible, target), SecondWinner(eligible), target, GroupA, GroupALimit(target));
  }

  lemma RestMembers(entries: seq<Entry>)
    ensures forall e :: e in Rest(entries) ==> e in entries
  {
  }

  lemma SecondWinnerMembers(eligible: seq<Entry>)
    ensures |SecondWinner(eligible)| <= 1
    ensures forall e :: e in SecondWinner(eligible) ==> e in eligible && Winner(e.candidate.bucket)
  {
    forall e | e in SecondWinner(eligible) ensures e in eligible && Winner(e.candidate.bucket) {
      assert e in Winners(eligible);
    }
  }

  lemma FilterSplitsOne(front: seq<Entry>, last: Entry, wanted: Entry -> bool)
    ensures Filter(front + [last], wanted) == Filter(front, wanted) + if wanted(last) then [last] else []
  {
    assert (front + [last])[..|front|] == front;
  }

  lemma {:induction false} FilterPartitions(entries: seq<Entry>, selected: seq<Entry>)
    ensures multiset(Filter(entries, (e: Entry) => e in selected)) + multiset(Filter(entries, (e: Entry) => e !in selected)) == multiset(entries)
  {
    if entries != [] {
      var front, last := entries[..|entries| - 1], entries[|entries| - 1];
      assert entries == front + [last] && multiset(entries) == multiset(front) + multiset{last};
      FilterPartitions(front, selected);
      FilterSplitsOne(front, last, (e: Entry) => e in selected);
      FilterSplitsOne(front, last, (e: Entry) => e !in selected);
    }
  }

  /** The selected entries and the entries left over are the eligible entries, each exactly once. */
  lemma SelectedOrLeft(eligible: seq<Entry>, selected: seq<Entry>, target: nat)
    requires DrawnFrom(eligible, selected, target) && Distinct(eligible)
    ensures multiset(selected) + multiset(Filter(eligible, (e: Entry) => e !in selected)) == multiset(eligible)
  {
    var chosen := Filter(eligible, (e: Entry) => e in selected);
    FilterPartitions(eligible, selected);
    FilterDistinct(eligible, (e: Entry) => e in selected);
    forall e ensures multiset(selected)[e] == multiset(chosen)[e] {
      DistinctMultiplicity(selected, e);
      DistinctMultiplicity(chosen, e);
    }
    assert multiset(selected) == multiset(chosen);
  }

  lemma {:induction false} LeftOverCandidates(selected: seq<Entry>, entries: seq<Entry>)
    requires forall e :: e in entries ==> (Chosen(selected, e) <==> e in selected)
    ensures Map(LeftOver(selected, entries), RejectedOf) == Map(Filter(entries, (e: Entry) => e !in selected), CandidateOf)
    decreases |entries|
  {
    if entries != [] {
      var front, last := entries[..|entries| - 1], entries[|entries| - 1];
      LeftOverCandidates(selected, front);
      var left, kept := LeftOver(selected, front), Filter(front, (e: Entry) => e !in selected);
      assert last in entries;
      if last !in selected {
        var reason := if last.candidate.bucket == A1 then WinnerCapExceeded else BatchQuotaExceeded;
        assert (left + [Rejection(last.candidate, reason)])[..|left|] == left;
        assert (kept + [last])[..|kept|] == kept;
      } else {
        assert left + [] == left && kept + [] == kept;
      }
    }
  }

  /** Among eligible entries, carrying a selected entry's texts means being that entry. */
  lemma ChosenMeansSelected(eligible: seq<Entry>, selected: seq<Entry>, target: nat, e: Entry)
    requires DrawnFrom(eligible, selected, target) && DistinctBy(eligible, MintKey) && e in eligible
    ensures Chosen(selected, e) <==> e in selected
  {
    if Chosen(selected, e) {
      var i :| 0 <= i < |selected| && selected[i].candidate.mint == e.candidate.mint;
      assert selected[i] in selected && MintKey(selected[i]) == MintKey(e);
    }
    if e in selected {
      var i :| 0 <= i < |selected| && selected[i] == e;
    }
  }

  lemma PoolIsKeyed(active: seq<Candidate>, audit: seq<Candidate>)
    ensures PoolKeyed(PoolOf(active, audit)) && Distinct(PoolOf(active, audit).eligible)
  {
    PoolStaysKeyed(Pool([], []), active, ActiveTracking);
    PoolStaysKeyed(PreparedAll(Pool([], []), active, ActiveTracking), audit, AuditOnly);
    var eligible := PoolOf(active, audit).eligible;
    forall i, j | 0 <= i < j < |eligible| ensures eligible[i] != eligible[j] {
      assert MintKey(eligible[i]) != MintKey(eligible[j]);
    }
  }

  lemma PoolConserves(active: seq<Candidate>, audit: seq<Candidate>)
    ensures PoolMembers(PoolOf(active, audit)) == multiset(active) + multiset(audit)
  {
    PoolLosesNothing(Pool([], []), active, ActiveTracking);
    PoolLosesNothing(PreparedAll(Pool([], []), active, ActiveTracking), audit, AuditOnly);
  }

  lemma SelectionConserves(eligible: seq<Entry>, selected: seq<Entry>, target: nat)
    requires DrawnFrom(eligible, selected, target) && Distinct(eligible) && DistinctBy(eligible, MintKey)
    ensures multiset(Map(selected, CandidateOf)) + multiset(Map(LeftOver(selected, eligible), RejectedOf)) == multiset(Map(eligible, CandidateOf))
  {
    var left := Filter(eligible, (e: Entry) => e !in selected);
    SelectedOrLeft(eligible, selected, target);
    forall e | e in eligible ensures Chosen(selected, e) <==> e in selected {
      ChosenMeansSelected(eligible, selected, target, e);
    }
    LeftOverCandidates(selected, eligible);
    MapPermutation(selected + left, eligible, CandidateOf);
    MapConcat(selected, left, CandidateOf);
  }

  /** Conservation: every input candidate is selected or rejected, exactly once. */
  lemma EveryCandidateOnce(active: seq<Candidate>, audit: seq<Candidate>, maxItems: nat)
    ensures var v := ViewOf(active, audit, maxItems);
            multiset(Map(v.selected, CandidateOf)) + multiset(Map(v.rejected, RejectedOf)) == multiset(active) + multiset(audit)
  {
    var pool := PoolOf(active, audit);
    var target := TargetSize(maxItems, |pool.eligible|);
    var selected := Selected(pool.eligible, target);
    PoolConserves(active, audit);
    PoolIsKeyed(active, audit);
    SelectedIsDrawn(pool.eligible, target);
    SelectionConserves(pool.eligible, selected, target);
    MapConcat(pool.rejected, LeftOver(selected, pool.eligible), RejectedOf);
  }

  /** No two selected entries share a mint or a pair, also when the texts are trimmed. */
  lemma SelectedIdentitiesDistinct(active: seq<Candidate>, audit: seq<Candidate>, maxItems: nat)
    ensures var v := ViewOf(active, audit, maxItems); DistinctBy(v.selected, MintKey) && DistinctBy(v.selected, PairKey)
  {
    var pool := PoolOf(active, audit);
    var target := TargetSize(maxItems, |pool.eligible|);
    PoolIsKeyed(active, audit);
    SelectedIsDrawn(pool.eligible, target);
    var selected := Selected(pool.eligible, target);
    forall i, j | 0 <= i < j < |selected| ensures MintKey(selected[i]) != MintKey(selected[j]) && PairKey(selected[i]) != PairKey(selected[j]) {
      assert selected[i] != selected[j] && selected[i] in selected && selected[j] in selected;
      DistinctByMembers(pool.eligible, MintKey, selected[i], selected[j]);
      DistinctByMembers(pool.eligible, PairKey, selected[i], selected[j]);
    }
  }

  // ---- Group counts ----

  lemma CountOfTake(selected: seq<Entry>, e: Entry, target: nat, group: Bucket -> bool)
    ensures Count(Take(selected, e, target), group)
         == Count(selected, group) + if e !in selected && |selected| < target && group(e.candidate.bucket) then 1 else 0
  {
    assert (selected + [e])[..|selected|] == selected;
  }

  lemma {:induction false} CountOfTakeUntil(selected: seq<Entry>, choices: seq<Entry>, target: nat, limited: Bucket -> bool, limit: nat, group: Bucket -> bool)
    ensures var r := TakeUntil(selected, choices, target, limited, limit);
            && Count(selected, group) <= Count(r, group) <= Count(selected, group) + |choices|
            && ((forall e :: e in choices ==> !group(e.candidate.bucket)) ==> Count(r, group) == Count(selected, group))
            && Count(r, limited) <= Max(Count(selected, limited), limit)
            && (forall e :: e in selected ==> e in r) && (forall e :: e in r ==> e in selected || e in choices)
            && ((forall e :: e in choices ==> limited(e.candidate.bucket)) ==> |r| == |selected| + Count(r, limited) - Count(selected, limited))
    decreases |choices|
  {
    if choices != [] {
      var front, last := choices[..|choices| - 1], choices[|choices| - 1];
      CountOfTakeUntil(selected, front, target, limited, limit, group);
      var before := TakeUntil(selected, front, target, limited, limit);
      CountOfTake(before, last, target, group);
      CountOfTake(before, last, target, limited);
      assert last in choices;
    }
  }

  lemma {:induction false} CountOfTakeAll(selected: seq<Entry>, choices: seq<Entry>, target: nat, group: Bucket -> bool)
    ensures var r := TakeAll(selected, choices, target);
            && Count(selected, group) <= Count(r, group)
            && ((forall e :: e in choices ==> !group(e.candidate.bucket)) ==> Count(r, group) == Count(selected, group))
    decreases |choices|
  {
    if choices != [] {
      var front, last := choices[..|choices| - 1], choices[|choices| - 1];
      CountOfTakeAll(selected, front, target, group);
      CountOfTake(TakeAll(selected, front, target), last, target, group);
      assert last in choices;
    }
  }

  predicate PicksGroup(entries: seq<Entry>, group: Bucket -> bool) {
    entries != [] && group(entries[0].candidate.bucket)
  }

  function One(b: bool): nat {
    if b then 1 else 0
  }

  lemma CountOfTakeFirst(selected: seq<Entry>, choices: seq<Entry>, target: nat, group: Bucket -> bool)
    ensures var r := TakeFirst(selected, choices, target);
            && Count(selected, group) <= Count(r, group) <= Count(selected, group) + One(PicksGroup(choices, group))
            && |selected| <= |r| <= |selected| + 1 && (forall e :: e in r ==> e in selected || (choices != [] && e == choices[0]))
            && (choices != [] && choices[0] !in selected && |selected| < target ==>
                  Count(r, group) == Count(selected, group) + One(PicksGroup(choices, group)) && |r| == |selected| + 1)
  {
    if choices != [] {
      CountOfTake(selected, choices[0], target, group);
    }
  }

  lemma FirstIsMember(entries: seq<Entry>)
    ensures entries != [] ==> entries[0] in entries
  {
  }

  lemma AuditPickShape(eligible: seq<Entry>, target: nat)
    ensures |AuditPick(eligible, target)| <= 1
    ensures AuditPick(eligible, target) != [] ==> target >= 6 && AuditPick(eligible, target)[0].kind == AuditOnly
  {
    FirstIsMember(AuditD1(eligible));
    FirstIsMember(AuditWatch(eligible));
  }

  lemma AuditedCounts(eligible: seq<Entry>, target: nat)
    ensures var s := TakeFirst([], AuditPick(eligible, target), target);
            && |s| <= 1
            && Count(s, GroupA) == One(PicksGroup(AuditPick(eligible, target), GroupA))
            && Count(s, Winner) == One(PicksGroup(AuditPick(eligible, target), Winner))
            && (forall e :: e in s ==> e.kind == AuditOnly)
  {
    AuditPickShape(eligible, target);
    PickCounts(AuditPick(eligible, target), target, GroupA);
    PickCounts(AuditPick(eligible, target), target, Winner);
  }

  lemma PickCounts(pick: seq<Entry>, target: nat, group: Bucket -> bool)
    requires pick != [] ==> target > 0
    ensures var s := TakeFirst([], pick, target);
            |s| <= 1 && Count(s, group) == One(PicksGroup(pick, group)) && forall e :: e in s ==> pick != [] && e == pick[0]
  {
    CountOfTakeFirst([], pick, target, group);
  }

  lemma DecayOrDOutsideA(eligible: seq<Entry>)
    ensures DecayOrD(eligible) != [] ==> !GroupA(DecayOrD(eligible)[0].candidate.bucket)
  {
    FirstIsMember(DecayOrD(eligible));
  }

  /** The opening is the audit pick and at most one active entry outside group A. */
  lemma OpeningCounts(eligible: seq<Entry>, target: nat)
    ensures |Opening(eligible, target)| <= 2
    ensures Count(Opening(eligible, target), GroupA) == One(PicksGroup(AuditPick(eligible, target), GroupA))
    ensures Count(Opening(eligible, target), Winner) == One(PicksGroup(AuditPick(eligible, target), Winner))
    ensures forall e :: e in Opening(eligible, target) && GroupA(e.candidate.bucket) ==> e.kind == AuditOnly
  {
    AuditedCounts(eligible, target);
    DecayOrDOutsideA(eligible);
    var audited := TakeFirst([], AuditPick(eligible, target), target);
    CountOfTakeFirst(audited, DecayOrD(eligible), target, GroupA);
    CountOfTakeFirst(audited, DecayOrD(eligible), target, Winner);
  }

  /** Filling up group B adds no group A entry and leaves room for two more. */
  lemma GroupBCounts(eligible: seq<Entry>, target: nat)
    ensures var s := WithGroupB(eligible, target);
            && Count(s, GroupA) == One(PicksGroup(AuditPick(eligible, target), GroupA))
            && Count(s, Winner) == One(PicksGroup(AuditPick(eligible, target), Winner))
            && (forall e :: e in s && GroupA(e.candidate.bucket) ==> e.kind == AuditOnly)
            && (target >= 6 ==> |s| + 2 <= target)
  {
    OpeningCounts(eligible, target);
    var opening, minimum := Opening(eligible, target), GroupBMinimum(target);
    CountOfTakeUntil(opening, NonAGroupB(eligible), target, GroupB, minimum, GroupA);
    CountOfTakeUntil(opening, NonAGroupB(eligible), target, GroupB, minimum, Winner);
    CountBounded(opening, GroupB);
  }

  lemma {:induction false} CountBounded(entries: seq<Entry>, group: Bucket -> bool)
    ensures Count(entries, group) <= |entries|
  {
    if entries != [] {
      CountBounded(entries[..|entries| - 1], group);
    }
  }

  function FirstTrap(eligible: seq<Entry>, target: nat): nat {
    One(GroupALimit(target) > 0 && Traps(eligible) != [])
  }

  function FirstWinner(eligible: seq<Entry>, target: nat): nat {
    One(GroupALimit(target) > 1 && Winners(eligible) != [])
  }

  lemma TrappedCounts(eligible: seq<Entry>, target: nat)
    ensures var s, picked := Trapped(eligible, target), One(PicksGroup(AuditPick(eligible, target), GroupA));
            && Count(s, GroupA) <= picked + FirstTrap(eligible, target)
            && (target >= 6 ==> Count(s, GroupA) == picked + FirstTrap(eligible, target) && |s| < target)
            && Count(s, Winner) == One(PicksGroup(AuditPick(eligible, target), Winner))
            && (forall e :: e in s && Winner(e.candidate.bucket) ==> e.kind == AuditOnly)
  {
    GroupBCounts(eligible, target);
    FirstIsMember(Traps(eligible));
    CountOfTakeFirst(WithGroupB(eligible, target), Traps(eligible), target, GroupA);
    CountOfTakeFirst(WithGroupB(eligible, target), Traps(eligible), target, Winner);
  }

  /** The first trap and the first winner are taken unconditionally, when the limit admits them. */
  lemma FirstACounts(eligible: seq<Entry>, target: nat)
    ensures var s, picked := WithFirstA(eligible, target), One(PicksGroup(AuditPick(eligible, target), GroupA));
            && Count(s, GroupA) <= picked + FirstTrap(eligible, target) + FirstWinner(eligible, target)
            && (target >= 6 ==> Count(s, GroupA) == picked + FirstTrap(eligible, target) + FirstWinner(eligible, target))
            && Count(s, Winner) <= One(PicksGroup(AuditPick(eligible, target), Winner)) + FirstWinner(eligible, target)
  {
    TrappedCounts(eligible, target);
    FirstIsMember(Winners(eligible));
    CountOfTakeFirst(Trapped(eligible, target), Winners(eligible), target, GroupA);
    CountOfTakeFirst(Trapped(eligible, target), Winners(eligible), target, Winner);
  }

  lemma FilledCounts(eligible: seq<Entry>, target: nat, group: Bucket -> bool)
    ensures Count(WithFirstA(eligible, target), group) <= Count(Filled(eligible, target), group)
    ensures (forall b :: group(b) ==> GroupA(b)) ==> Count(Filled(eligible, target), group) == Count(WithFirstA(eligible, target), group)
  {
    CountOfTakeAll(WithFirstA(eligible, target), NonA(eligible), target, group);
  }

  lemma MoreTrapsCounts(eligible: seq<Entry>, target: nat, group: Bucket -> bool)
    ensures Count(Filled(eligible, target), group) <= Count(MoreTraps(eligible, target), group)
    ensures (forall b :: group(b) ==> !TrapFailure(b)) ==> Count(MoreTraps(eligible, target), group) == Count(Filled(eligible, target), group)
    ensures Count(MoreTraps(eligible, target), GroupA) <= Max(Count(Filled(eligible, target), GroupA), GroupALimit(target))
  {
    RestMembers(Traps(eligible));
    CountOfTakeUntil(Filled(eligible, target), Rest(Traps(eligible)), target, GroupA, GroupALimit(target), group);
  }

  lemma LastCounts(eligible: seq<Entry>, target: nat, group: Bucket -> bool)
    ensures Count(MoreTraps(eligible, target), group) <= Count(Selected(eligible, target), group) <= Count(MoreTraps(eligible, target), group) + 1
    ensures Count(Selected(eligible, target), GroupA) <= Max(Count(MoreTraps(eligible, target), GroupA), GroupALimit(target))
  {
    SecondWinnerMembers(eligible);
    CountOfTakeUntil(MoreTraps(eligible, target), SecondWinner(eligible), target, GroupA, GroupALimit(target), group);
  }

  /** The later passes never push group A past its limit, and add at most one more winner. */
  lemma SelectedCounts(eligible: seq<Entry>, target: nat)
    ensures var s, first := Selected(eligible, target), WithFirstA(eligible, target);
            && Count(first, GroupA) <= Count(s, GroupA) <= Max(Count(first, GroupA), GroupALimit(target))
            && Count(s, Winner) <= Count(first, Winner) + 1
  {
    FilledCounts(eligible, target, GroupA);
    FilledCounts(eligible, target, Winner);
    MoreTrapsCounts(eligible, target, GroupA);
    MoreTrapsCounts(eligible, target, Winner);
    LastCounts(eligible, target, GroupA);
    LastCounts(eligible, target, Winner);
  }

  /** No pass after the first traps and winners gives anything back. */
  lemma LaterPassesKeep(eligible: seq<Entry>, target: nat, group: Bucket -> bool)
    ensures Count(WithFirstA(eligible, target), group) <= Count(Selected(eligible, target), group)
  {
    FilledCounts(eligible, target, group);
    MoreTrapsCounts(eligible, target, group);
    LastCounts(eligible, target, group);
  }

  /** Group A stays within min(4, 40% of the target) except in exactly one case: the audit pick is
      itself group A, the limit is two, and a trap and a winner are both there to be taken. */
  lemma GroupALimitExactly(eligible: seq<Entry>, target: nat)
    ensures Count(Selected(eligible, target), GroupA) <= GroupALimit(target)
            <==> !(PicksGroup(AuditPick(eligible, target), GroupA) && GroupALimit(target) == 2
                   && Traps(eligible) != [] && Winners(eligible) != [])
  {
    FirstACounts(eligible, target);
    SelectedCounts(eligible, target);
  }

  lemma {:induction false} CountFiltered(entries: seq<Entry>, group: Bucket -> bool, wanted: Entry -> bool)
    requires forall e :: wanted(e) <==> group(e.candidate.bucket)
    ensures Count(entries, group) == |Filter(entries, wanted)|
  {
    if entries != [] {
      CountFiltered(entries[..|entries| - 1], group, wanted);
    }
  }

  lemma CountIsFilter(entries: seq<Entry>, group: Bucket -> bool)
    ensures Count(entries, group) == |Filter(entries, (e: Entry) => group(e.candidate.bucket))|
  {
    CountFiltered(entries, group, (e: Entry) => group(e.candidate.bucket));
  }

  lemma {:induction false} MemberSetSize<T>(s: seq<T>)
    ensures |set x | x in s| <= |s|
  {
    if s == [] {
      assert (set x | x in s) == {};
    } else {
      var front := s[..|s| - 1];
      MemberSetSize(front);
      assert (set x | x in s) == (set x | x in front) + {s[|s| - 1]};
    }
  }

  /** Distinct entries of a group that are all present count at least that many. */
  lemma CountAtLeast(entries: seq<Entry>, choices: seq<Entry>, group: Bucket -> bool)
    requires Distinct(choices) && forall e :: e in choices ==> e in entries && group(e.candidate.bucket)
    ensures Count(entries, group) >= |choices|
  {
    var kept := Filter(entries, (e: Entry) => group(e.candidate.bucket));
    CountIsFilter(entries, group);
    DistinctCardinality(choices);
    MemberSetSize(kept);
    SubsetIsSmaller(set e | e in choices, set e | e in kept);
  }

  /** While there is room, filling a group stops only at its limit or when every choice is in. */
  lemma {:induction false} FillsGroup(selected: seq<Entry>, choices: seq<Entry>, target: nat, group: Bucket -> bool, limit: nat)
    requires |selected| - Count(selected, group) + limit <= target && forall e :: e in choices ==> group(e.candidate.bucket)
    ensures var r := TakeUntil(selected, choices, target, group, limit);
            Count(r, group) >= limit || forall e :: e in choices ==> e in r
    decreases |choices|
  {
    if choices != [] {
      var front, last := choices[..|choices| - 1], choices[|choices| - 1];
      FillsGroup(selected, front, target, group, limit);
      CountOfTakeUntil(selected, front, target, group, limit, group);
      assert forall e :: e in choices ==> e in front || e == last;
    }
  }

  lemma GroupBDistinct(eligible: seq<Entry>)
    requires Distinct(eligible)
    ensures Distinct(NonAGroupB(eligible))
  {
    FilterDistinct(eligible, (e: Entry) => e.kind == ActiveTracking);
    FilterDistinct(ActiveOf(eligible), (e: Entry) => !GroupA(e.candidate.bucket));
    FilterDistinct(NonA(eligible), (e: Entry) => GroupB(e.candidate.bucket));
  }

  /** The group B floor is met whenever enough active group B entries exist. */
  lemma GroupBFloor(eligible: seq<Entry>, target: nat)
    requires Distinct(eligible) && |NonAGroupB(eligible)| >= GroupBMinimum(target)
    ensures Count(Selected(eligible, target), GroupB) >= GroupBMinimum(target)
  {
    var minimum := GroupBMinimum(target);
    if target >= 6 {
      var opening, withB := Opening(eligible, target), WithGroupB(eligible, target);
      OpeningCounts(eligible, target);
      FillsGroup(opening, NonAGroupB(eligible), target, GroupB, minimum);
      GroupBDistinct(eligible);
      if Count(withB, GroupB) < minimum {
        CountAtLeast(withB, NonAGroupB(eligible), GroupB);
      }
      FirstAKeepsGroupB(eligible, target);
      LaterPassesKeep(eligible, target, GroupB);
    }
  }

  lemma FirstAKeepsGroupB(eligible: seq<Entry>, target: nat)
    ensures Count(WithGroupB(eligible, target), GroupB) <= Count(WithFirstA(eligible, target), GroupB)
  {
    var withB, limit := WithGroupB(eligible, target), GroupALimit(target);
    CountOfTakeFirst(withB, Traps(eligible), target, GroupB);
    var trapped := if limit > 0 then TakeFirst(withB, Traps(eligible), target) else withB;
    CountOfTakeFirst(trapped, Winners(eligible), target, GroupB);
  }

  // ---- Composer against validator ----

  lemma RawDistinctFromTrimmed(entries: seq<Entry>)
    requires DistinctBy(entries, MintKey) && DistinctBy(entries, PairKey)
    ensures RawDistinct(entries, (c: Candidate) => c.mint) && RawDistinct(entries, (c: Candidate) => c.pair)
  {
    forall i, j | 0 <= i < j < |entries|
      ensures entries[i].candidate.mint != entries[j].candidate.mint && entries[i].candidate.pair != entries[j].candidate.pair
    {
      assert MintKey(entries[i]) != MintKey(entries[j]) && PairKey(entries[i]) != PairKey(entries[j]);
    }
  }

  lemma SharesMet(target: nat, a: nat, b: nat)
    ensures a <= GroupALimit(target) ==> a <= GROUP_A_TOTAL_CAP && a * 100 <= target * 40
    ensures target >= 6 && b >= GroupBMinimum(target) ==> b * 100 >= target * 30 && b > 0
  {
  }

  /** With an audit pick outside group A, no cap of the validator is ever broken, and a filled
      selection meets its group A share. */
  lemma CapsNeverBroken(eligible: seq<Entry>, target: nat)
    requires !PicksGroup(AuditPick(eligible, target), GroupA)
    ensures var s := Selected(eligible, target);
            && !Breaks(WinnerCapExceeded2, s, 0) && !Breaks(GroupATotalCapExceeded, s, 0)
            && (|s| == target ==> !Breaks(GroupAShareExceeded, s, 0))
  {
    CapsMet(eligible, target);
    CapRulesHold(Selected(eligible, target), target);
  }

  lemma CapRulesHold(items: seq<Entry>, target: nat)
    requires Count(items, GroupA) <= GroupALimit(target) && Count(items, Winner) <= 2
    ensures !Breaks(WinnerCapExceeded2, items, 0) && !Breaks(GroupATotalCapExceeded, items, 0)
    ensures |items| == target ==> !Breaks(GroupAShareExceeded, items, 0)
  {
    SharesMet(target, Count(items, GroupA), 0);
  }

  /** With enough active group B entries, a filled selection meets every group B rule. */
  lemma GroupBRulesNeverBroken(eligible: seq<Entry>, target: nat)
    requires Distinct(eligible) && |NonAGroupB(eligible)| >= GroupBMinimum(target) && |Selected(eligible, target)| == target
    ensures var s := Selected(eligible, target);
            !Breaks(NoGroupBOrD, s, 0) && !Breaks(MissingGroupB, s, 0) && !Breaks(GroupBShareBelow, s, 0)
  {
    GroupBFloor(eligible, target);
    EnoughGroupB(Selected(eligible, target));
  }

  lemma EnoughGroupB(items: seq<Entry>)
    requires Count(items, GroupB) >= GroupBMinimum(|items|)
    ensures !Breaks(NoGroupBOrD, items, 0) && !Breaks(MissingGroupB, items, 0) && !Breaks(GroupBShareBelow, items, 0)
  {
    SharesMet(|items|, 0, Count(items, GroupB));
  }

  /** A pool on which the composer itself breaks the group A limit: the only audit candidate is a
      trap, and so is one of five active candidates, another of which is a winner. */
  lemma AuditTrapBreaksTheLimit(eligible: seq<Entry>)
    requires |eligible| == 6
    requires eligible[5].kind == AuditOnly && eligible[5].candidate.bucket == A2
    requires forall i :: 0 <= i < 5 ==> eligible[i].kind == ActiveTracking
    requires eligible[0].candidate.bucket == A3 && eligible[1].candidate.bucket == A1
    ensures Count(Selected(eligible, 6), GroupA) > GroupALimit(6) == 2
  {
    OnlyAuditIsPicked(eligible);
    assert eligible[0] in eligible && eligible[0] in Traps(eligible);
    assert eligible[1] in eligible && eligible[1] in Winners(eligible);
    GroupALimitExactly(eligible, 6);
  }

  lemma OnlyAuditIsPicked(eligible: seq<Entry>)
    requires |eligible| == 6 && eligible[5].kind == AuditOnly && eligible[5].candidate.bucket == A2
    requires forall i :: 0 <= i < 5 ==> eligible[i].kind == ActiveTracking
    ensures PicksGroup(AuditPick(eligible, 6), GroupA)
  {
    assert forall e :: e in eligible && e.kind == AuditOnly ==> e == eligible[5];
    assert eligible[5] in eligible && eligible[5] in AuditWatch(eligible);
    FirstIsMember(AuditD1(eligible));
    FirstIsMember(AuditWatch(eligible));
  }

  lemma {:induction false} CleanIsEligible(pool: Pool, candidates: seq<Candidate>, kind: Kind)
    requires forall c :: c in candidates ==> Clean(c, kind)
    requires PoolKeyed(pool.(eligible := pool.eligible + EntriesOf(candidates, kind)))
    ensures PreparedAll(pool, candidates, kind).eligible == pool.eligible + EntriesOf(candidates, kind)
    decreases |candidates|
  {
    var all := pool.eligible + EntriesOf(candidates, kind);
    if candidates == [] {
      assert all == pool.eligible;
    } else {
      var front, last := candidates[..|candidates| - 1], candidates[|candidates| - 1];
      var before := pool.eligible + EntriesOf(front, kind);
      assert all == before + [Entry(last, kind)];
      assert forall i :: 0 <= i < |before| ==> before[i] == all[i];
      assert last in candidates;
      CleanIsEligible(pool, front, kind);
      var e := Entry(last, kind);
      forall i | 0 <= i < |before| ensures MintKey(before[i]) != MintKey(e) && PairKey(before[i]) != PairKey(e) {
        assert MintKey(all[i]) != MintKey(all[|before|]) && PairKey(all[i]) != PairKey(all[|before|]);
      }
    }
  }

  lemma CleanPool(active: seq<Candidate>, audit: seq<Candidate>)
    requires (forall c :: c in active ==> Clean(c, ActiveTracking)) && (forall c :: c in audit ==> Clean(c, AuditOnly))
    requires PoolKeyed(Pool(EntriesOf(active, ActiveTracking) + EntriesOf(audit, AuditOnly), []))
    ensures PoolOf(active, audit).eligible == EntriesOf(active, ActiveTracking) + EntriesOf(audit, AuditOnly)
  {
    var entries, none := EntriesOf(active, ActiveTracking), Pool([], []);
    assert none.eligible + entries == entries;
    FrontKeyed(entries, EntriesOf(audit, AuditOnly));
    CleanIsEligible(none, active, ActiveTracking);
    CleanIsEligible(PreparedAll(none, active, ActiveTracking), audit, AuditOnly);
  }

  /** The same from the inputs of the view: six clean candidates of distinct identities. */
  lemma AuditTrapBreaksTheView(active: seq<Candidate>, audit: seq<Candidate>)
    requires |active| == 5 && |audit| == 1 && active[0].bucket == A3 && active[1].bucket == A1 && audit[0].bucket == A2
    requires (forall c :: c in active ==> Clean(c, ActiveTracking)) && (forall c :: c in audit ==> Clean(c, AuditOnly))
    requires PoolKeyed(Pool(EntriesOf(active, ActiveTracking) + EntriesOf(audit, AuditOnly), []))
    ensures Count(ViewOf(active, audit, 6).selected, GroupA) > GroupALimit(6)
  {
    var eligible := PoolOf(active, audit).eligible;
    CleanPool(active, audit);
    AuditTrapBreaksTheLimit(eligible);
    assert ViewOf(active, audit, 6).selected == Selected(eligible, 6);
  }

  lemma FrontKeyed(front: seq<Entry>, rest: seq<Entry>)
    requires PoolKeyed(Pool(front + rest, []))
    ensures PoolKeyed(Pool(front, []))
  {
    var all := front + rest;
    forall i, j | 0 <= i < j < |front| ensures MintKey(front[i]) != MintKey(front[j]) && PairKey(front[i]) != PairKey(front[j]) {
      assert MintKey(all[i]) != MintKey(all[j]) && PairKey(all[i]) != PairKey(all[j]);
    }
  }

  /** The validator never reports a duplicate on a composed view. */
  lemma DuplicatesNeverReported(active: seq<Candidate>, audit: seq<Candidate>, maxItems: nat)
    ensures var s := ViewOf(active, audit, maxItems).selected; !Breaks(DuplicateMint, s, 0) && !Breaks(DuplicatePair, s, 0)
  {
    SelectedIdentitiesDistinct(active, audit, maxItems);
    RawDistinctFromTrimmed(ViewOf(active, audit, maxItems).selected);
  }

  /** A view is reported good exactly when the target is filled and no rule is broken. */
  lemma QuotaOkExactly(active: seq<Candidate>, audit: seq<Candidate>, maxItems: nat)
    ensures var v := ViewOf(active, audit, maxItems);
            v.quotaOk <==> |v.selected| == TargetSize(maxItems, |PoolOf(active, audit).eligible|) && forall rule :: !Breaks(rule, v.selected, 0)
  {
    var v := ViewOf(active, audit, maxItems);
    assert forall rule :: rule in Violations(v.selected, 0) <==> Breaks(rule, v.selected, 0);
    if v.quotaOk {
      assert TargetNotFilled !in v.violations;
      forall rule ensures !Breaks(rule, v.selected, 0) {
        assert rule !in v.violations;
      }
    }
  }

  // ---- What quota_ok asks of the pool ----

  /** All entries but the audit pick are active. */
  ghost predicate PickOrActive(pick: seq<Entry>, entries: seq<Entry>) {
    forall e :: e in entries ==> e in pick || e.kind == ActiveTracking
  }

  lemma FirstPickOrActive(pick: seq<Entry>, selected: seq<Entry>, choices: seq<Entry>, target: nat)
    requires PickOrActive(pick, selected) && PickOrActive(pick, choices)
    ensures PickOrActive(pick, TakeFirst(selected, choices, target))
  {
    FirstIsMember(choices);
  }

  lemma {:induction false} AllPickOrActive(pick: seq<Entry>, selected: seq<Entry>, choices: seq<Entry>, target: nat)
    requires PickOrActive(pick, selected) && PickOrActive(pick, choices)
    ensures PickOrActive(pick, TakeAll(selected, choices, target))
    decreases |choices|
  {
    if choices != [] {
      AllPickOrActive(pick, selected, choices[..|choices| - 1], target);
      FirstIsMember([choices[|choices| - 1]]);
    }
  }

  lemma UntilPickOrActive(pick: seq<Entry>, selected: seq<Entry>, choices: seq<Entry>, target: nat, group: Bucket -> bool, limit: nat)
    requires PickOrActive(pick, selected) && PickOrActive(pick, choices)
    ensures PickOrActive(pick, TakeUntil(selected, choices, target, group, limit))
  {
    CountOfTakeUntil(selected, choices, target, group, limit, group);
  }

  lemma WithGroupBPickOrActive(eligible: seq<Entry>, target: nat)
    ensures PickOrActive(AuditPick(eligible, target), WithGroupB(eligible, target))
  {
    var pick := AuditPick(eligible, target);
    var audited := TakeFirst([], pick, target);
    FirstPickOrActive(pick, [], pick, target);
    FirstPickOrActive(pick, audited, DecayOrD(eligible), target);
    UntilPickOrActive(pick, Opening(eligible, target), NonAGroupB(eligible), target, GroupB, GroupBMinimum(target));
  }

  lemma FirstAPickOrActive(eligible: seq<Entry>, target: nat)
    ensures PickOrActive(AuditPick(eligible, target), WithFirstA(eligible, target))
  {
    var pick := AuditPick(eligible, target);
    WithGroupBPickOrActive(eligible, target);
    FirstPickOrActive(pick, WithGroupB(eligible, target), Traps(eligible), target);
    FirstPickOrActive(pick, Trapped(eligible, target), Winners(eligible), target);
  }

  /** Only the audit pick of a selection is not active. */
  lemma OnlyThePickIsAudit(eligible: seq<Entry>, target: nat)
    ensures PickOrActive(AuditPick(eligible, target), Selected(eligible, target))
  {
    var pick := AuditPick(eligible, target);
    FirstAPickOrActive(eligible, target);
    AllPickOrActive(pick, WithFirstA(eligible, target), NonA(eligible), target);
    RestMembers(Traps(eligible));
    UntilPickOrActive(pick, Filled(eligible, target), Rest(Traps(eligible)), target, GroupA, GroupALimit(target));
    SecondWinnerMembers(eligible);
    UntilPickOrActive(pick, MoreTraps(eligible, target), SecondWinner(eligible), target, GroupA, GroupALimit(target));
  }

  /** The active group B entries, and the audit pick if it is one. */
  function GroupBAvailable(eligible: seq<Entry>, target: nat): nat {
    |NonAGroupB(eligible)| + One(PicksGroup(AuditPick(eligible, target), GroupB))
  }

  lemma GroupBMembers(eligible: seq<Entry>, pick: seq<Entry>, selected: seq<Entry>, e: Entry)
    requires PickOrActive(pick, selected) && |pick| <= 1 && e in selected && e in eligible && GroupB(e.candidate.bucket)
    ensures e in NonAGroupB(eligible) || (PicksGroup(pick, GroupB) && e == pick[0])
  {
    assert e.kind == ActiveTracking ==> e in ActiveOf(eligible) && e in NonA(eligible) && e in NonAGroupB(eligible);
  }

  lemma GroupBAtMost(eligible: seq<Entry>, target: nat)
    requires Distinct(eligible)
    ensures Count(Selected(eligible, target), GroupB) <= GroupBAvailable(eligible, target)
  {
    var s, pick := Selected(eligible, target), AuditPick(eligible, target);
    SelectedIsDrawn(eligible, target);
    OnlyThePickIsAudit(eligible, target);
    AuditPickShape(eligible, target);
    GroupBCountAtMost(eligible, pick, s);
  }

  lemma GroupBCountAtMost(eligible: seq<Entry>, pick: seq<Entry>, s: seq<Entry>)
    requires PickOrActive(pick, s) && |pick| <= 1 && Distinct(s) && forall e :: e in s ==> e in eligible
    ensures Count(s, GroupB) <= |NonAGroupB(eligible)| + One(PicksGroup(pick, GroupB))
  {
    forall e | e in s && GroupB(e.candidate.bucket) ensures e in NonAGroupB(eligible) || (PicksGroup(pick, GroupB) && e == pick[0]) {
      GroupBMembers(eligible, pick, s, e);
    }
    CountAtMost(s, NonAGroupB(eligible), if PicksGroup(pick, GroupB) then {pick[0]} else {}, GroupB);
  }

  /** Distinct entries count at most as many as there are members of the group to draw from. */
  lemma CountAtMost(entries: seq<Entry>, choices: seq<Entry>, extra: set<Entry>, group: Bucket -> bool)
    requires Distinct(entries) && forall e :: e in entries && group(e.candidate.bucket) ==> e in choices || e in extra
    ensures Count(entries, group) <= |choices| + |extra|
  {
    CountIsFilter(entries, group);
    FilterDistinct(entries, (e: Entry) => group(e.candidate.bucket));
    DistinctWithin(Filter(entries, (e: Entry) => group(e.candidate.bucket)), choices, extra);
  }

  lemma DistinctWithin<T>(kept: seq<T>, others: seq<T>, extra: set<T>)
    requires Distinct(kept) && forall e :: e in kept ==> e in others || e in extra
    ensures |kept| <= |others| + |extra|
  {
    var members := set e | e in kept;
    var known := set e | e in others;
    DistinctCardinality(kept);
    MemberSetSize(others);
    SubsetIsSmaller(members, known + extra);
  }

  /** Exact: the group B floor of the selection is met exactly when the pool has enough of group B. */
  lemma GroupBFloorExactly(eligible: seq<Entry>, target: nat)
    requires Distinct(eligible)
    ensures Count(Selected(eligible, target), GroupB) >= GroupBMinimum(target) <==> GroupBAvailable(eligible, target) >= GroupBMinimum(target)
  {
    GroupBAtMost(eligible, target);
    if |NonAGroupB(eligible)| >= GroupBMinimum(target) {
      GroupBFloor(eligible, target);
    } else if target >= 6 && GroupBAvailable(eligible, target) >= GroupBMinimum(target) {
      PickFillsFloor(eligible, target);
    }
  }

  /** One active entry short, and the audit pick makes up for it. */
  lemma PickFillsFloor(eligible: seq<Entry>, target: nat)
    requires Distinct(eligible) && target >= 6
    requires |NonAGroupB(eligible)| + 1 == GroupBMinimum(target) && PicksGroup(AuditPick(eligible, target), GroupB)
    ensures Count(Selected(eligible, target), GroupB) >= GroupBMinimum(target)
  {
    var pick, opening, others := AuditPick(eligible, target), Opening(eligible, target), NonAGroupB(eligible);
    OpeningCounts(eligible, target);
    CountBounded(opening, GroupB);
    AuditPickShape(eligible, target);
    PickIsOpening(eligible, target);
    GroupBDistinct(eligible);
    assert pick[0] !in others;
    FloorFilled(opening, others, target, GroupBMinimum(target), pick[0]);
    FirstAKeepsGroupB(eligible, target);
    LaterPassesKeep(eligible, target, GroupB);
  }

  lemma PickIsOpening(eligible: seq<Entry>, target: nat)
    requires AuditPick(eligible, target) != [] && target >= 6
    ensures AuditPick(eligible, target)[0] in Opening(eligible, target)
  {
    var pick := AuditPick(eligible, target);
    var audited := TakeFirst([], pick, target);
    assert audited == [pick[0]];
  }

  lemma FloorFilled(opening: seq<Entry>, others: seq<Entry>, target: nat, minimum: nat, pick: Entry)
    requires |opening| - Count(opening, GroupB) + minimum <= target && (forall e :: e in others ==> GroupB(e.candidate.bucket))
    requires pick in opening && GroupB(pick.candidate.bucket) && Distinct(others) && pick !in others && |others| + 1 == minimum
    ensures Count(TakeUntil(opening, others, target, GroupB, minimum), GroupB) >= minimum
  {
    var r := TakeUntil(opening, others, target, GroupB, minimum);
    FillsGroup(opening, others, target, GroupB, minimum);
    CountOfTakeUntil(opening, others, target, GroupB, minimum, GroupB);
    if Count(r, GroupB) < minimum {
      CountAtLeast(r, others + [pick], GroupB);
    }
  }

  /** The rules that the composer leaves to chance. */
  const UNSECURED: set<Violation> :=
    {WinnerCapExceeded2, MissingGroupA, GroupAWithoutTrap, MissingD1, MissingWatchOnly, MissingDecay, GroupFNeedsCorpus}

  /** The two group A rules about numbers, and the three group B rules, as one bound each. */
  lemma GroupRulesAreBounds(items: seq<Entry>)
    ensures !Breaks(GroupATotalCapExceeded, items, 0) && !Breaks(GroupAShareExceeded, items, 0) <==> Count(items, GroupA) <= GroupALimit(|items|)
    ensures !Breaks(NoGroupBOrD, items, 0) && !Breaks(MissingGroupB, items, 0) && !Breaks(GroupBShareBelow, items, 0)
            <==> Count(items, GroupB) >= GroupBMinimum(|items|)
  {
    CountBounded(items, GroupA);
  }

  const SECURED: set<Violation> :=
    {DuplicateMint, DuplicatePair, GroupATotalCapExceeded, GroupAShareExceeded, NoGroupBOrD, MissingGroupB, GroupBShareBelow, TargetNotFilled}

  lemma SecuredRules(items: seq<Entry>)
    requires !Breaks(DuplicateMint, items, 0) && !Breaks(DuplicatePair, items, 0)
    ensures (forall rule :: rule in SECURED ==> !Breaks(rule, items, 0))
            <==> Count(items, GroupA) <= GroupALimit(|items|) && Count(items, GroupB) >= GroupBMinimum(|items|)
  {
    GroupRulesAreBounds(items);
    var breaks := (rule: Violation) => Breaks(rule, items, 0);
    assert !breaks(TargetNotFilled);
    ListedRules(breaks);
  }

  lemma ListedRules(breaks: Violation -> bool)
    requires !breaks(DuplicateMint) && !breaks(DuplicatePair) && !breaks(TargetNotFilled)
    ensures (forall rule :: rule in SECURED ==> !breaks(rule))
            <==> && !breaks(GroupATotalCapExceeded) && !breaks(GroupAShareExceeded)
                 && !breaks(NoGroupBOrD) && !breaks(MissingGroupB) && !breaks(GroupBShareBelow)
  {
  }

  lemma EveryRuleListed(rule: Violation)
    ensures rule in SECURED || rule in UNSECURED
  {
  }

  lemma NoRuleBroken(items: seq<Entry>)
    requires !Breaks(DuplicateMint, items, 0) && !Breaks(DuplicatePair, items, 0)
    ensures (forall rule :: !Breaks(rule, items, 0))
            <==> && Count(items, GroupA) <= GroupALimit(|items|) && Count(items, GroupB) >= GroupBMinimum(|items|)
                 && forall rule :: rule in UNSECURED ==> !Breaks(rule, items, 0)
  {
    SecuredRules(items);
    forall rule: Violation ensures rule in SECURED || rule in UNSECURED {
      EveryRuleListed(rule);
    }
  }

  /** What `quota_ok` asks for: a filled target; a pool on which the first group A picks do not pass
      the limit; enough of group B in the pool; and the rules that the composer does not secure. */
  lemma QuotaOkOnPool(active: seq<Candidate>, audit: seq<Candidate>, maxItems: nat)
    ensures var v, eligible := ViewOf(active, audit, maxItems), PoolOf(active, audit).eligible;
            var target := TargetSize(maxItems, |eligible|);
            v.quotaOk
            <==> && |v.selected| == target
                 && !(PicksGroup(AuditPick(eligible, target), GroupA) && GroupALimit(target) == 2 && Traps(eligible) != [] && Winners(eligible) != [])
                 && GroupBAvailable(eligible, target) >= GroupBMinimum(target)
                 && forall rule :: rule in UNSECURED ==> !Breaks(rule, v.selected, 0)
  {
    var v, eligible := ViewOf(active, audit, maxItems), PoolOf(active, audit).eligible;
    var target := TargetSize(maxItems, |eligible|);
    QuotaOkExactly(active, audit, maxItems);
    DuplicatesNeverReported(active, audit, maxItems);
    NoRuleBroken(v.selected);
    PoolIsKeyed(active, audit);
    GroupALimitExactly(eligible, target);
    GroupBFloorExactly(eligible, target);
  }

  // ---- What the passes and the rules mean, entry by entry ----

  lemma {:induction false} CountPositive(entries: seq<Entry>, group: Bucket -> bool)
    ensures Count(entries, group) == 0 <==> forall e :: e in entries ==> !group(e.candidate.bucket)
  {
    if entries != [] {
      CountPositive(entries[..|entries| - 1], group);
      assert entries == entries[..|entries| - 1] + [entries[|entries| - 1]];
    }
  }

  predicate NoneIn(items: seq<Entry>, buckets: set<Bucket>) {
    forall e :: e in items ==> e.candidate.bucket !in buckets
  }

  lemma CountNone(items: seq<Entry>, group: Bucket -> bool, buckets: set<Bucket>)
    requires forall b :: group(b) <==> b in buckets
    ensures Count(items, group) == 0 <==> NoneIn(items, buckets)
  {
    CountPositive(items, group);
  }

  /** The rules of group A that ask whether some entry is there. */
  lemma PresenceRulesA(items: seq<Entry>)
    ensures Breaks(MissingGroupA, items, 0) <==> |items| >= 5 && NoneIn(items, {A1, A2, A3, A4})
    ensures Breaks(GroupAWithoutTrap, items, 0) <==> !NoneIn(items, {A1, A2, A3, A4}) && NoneIn(items, {A2, A3, A4})
  {
    CountNone(items, GroupA, {A1, A2, A3, A4});
    CountNone(items, TrapFailure, {A2, A3, A4});
  }

  lemma PresenceRulesB(items: seq<Entry>)
    ensures Breaks(MissingGroupB, items, 0) <==> |items| >= 6 && NoneIn(items, {B1, B2, B3, B4, B5})
    ensures Breaks(NoGroupBOrD, items, 0) <==> |items| >= 6 && NoneIn(items, {B1, B2, B3, B4, B5}) && NoneIn(items, {D1, D2, D3, D4})
    ensures Breaks(MissingDecay, items, 0) <==> |items| >= 6 && NoneIn(items, {B2, B4})
  {
    CountNone(items, GroupB, {B1, B2, B3, B4, B5});
    CountNone(items, GroupD, {D1, D2, D3, D4});
    CountNone(items, DecayBucket, {B2, B4});
  }

  lemma PresenceRulesOther(items: seq<Entry>, minCorpus: nat)
    ensures Breaks(MissingD1, items, 0) <==> |items| >= 6 && NoneIn(items, {D1})
    ensures Breaks(MissingWatchOnly, items, 0) <==> |items| >= 6 && forall e :: e in items ==> e.candidate.lane != WatchOnly
    ensures Breaks(GroupFNeedsCorpus, items, minCorpus) <==> !NoneIn(items, {F1, F2, F3, F4}) && minCorpus < 10
  {
    CountNone(items, DeadToken, {D1});
    CountNone(items, GroupF, {F1, F2, F3, F4});
  }

  /** The rules about duplicates: two items with one mint, or one pair, as written. */
  lemma DuplicateRules(items: seq<Entry>)
    ensures Breaks(DuplicateMint, items, 0) <==> exists i, j :: 0 <= i < j < |items| && items[i].candidate.mint == items[j].candidate.mint
    ensures Breaks(DuplicatePair, items, 0) <==> exists i, j :: 0 <= i < j < |items| && items[i].candidate.pair == items[j].candidate.pair
  {
  }

  /** The rules about numbers, on the entries of a group. */
  lemma NumberRules(items: seq<Entry>)
    ensures var n, a := |items|, |Filter(items, (e: Entry) => e.candidate.bucket in {A1, A2, A3, A4})|;
            && (Breaks(GroupATotalCapExceeded, items, 0) <==> a > 4)
            && (Breaks(GroupAShareExceeded, items, 0) <==> 10 * a > 4 * n)
            && (Breaks(WinnerCapExceeded2, items, 0) <==> |Filter(items, (e: Entry) => e.candidate.bucket == A1)| > 2)
            && (Breaks(GroupBShareBelow, items, 0)
                <==> n >= 6 && 10 * |Filter(items, (e: Entry) => e.candidate.bucket in {B1, B2, B3, B4, B5})| < 3 * n)
  {
    CountFiltered(items, GroupA, (e: Entry) => e.candidate.bucket in {A1, A2, A3, A4});
    CountFiltered(items, Winner, (e: Entry) => e.candidate.bucket == A1);
    CountFiltered(items, GroupB, (e: Entry) => e.candidate.bucket in {B1, B2, B3, B4, B5});
  }

  lemma {:induction false} TakeAllTakes(selected: seq<Entry>, choices: seq<Entry>, target: nat)
    ensures var r := TakeAll(selected, choices, target);
            && selected <= r && (|r| < target ==> forall e :: e in choices ==> e in r)
    decreases |choices|
  {
    if choices != [] {
      TakeAllTakes(selected, choices[..|choices| - 1], target);
      assert choices == choices[..|choices| - 1] + [choices[|choices| - 1]];
    }
  }

  lemma {:induction false} TakeUntilTakes(selected: seq<Entry>, choices: seq<Entry>, target: nat, group: Bucket -> bool, limit: nat)
    ensures var r := TakeUntil(selected, choices, target, group, limit);
            && selected <= r && (|r| < target && Count(r, group) < limit ==> forall e :: e in choices ==> e in r)
    decreases |choices|
  {
    if choices != [] {
      var front := choices[..|choices| - 1];
      TakeUntilTakes(selected, front, target, group, limit);
      CountOfTake(TakeUntil(selected, front, target, group, limit), choices[|choices| - 1], target, group);
      assert choices == front + [choices[|choices| - 1]];
    }
  }

  /** What is left over once the target is not filled: no active entry outside group A; and, unless
      group A has reached its limit, no trap, no first winner of a limit above one, and no second winner. */
  lemma SelectionIsMaximal(eligible: seq<Entry>, target: nat)
    requires |Selected(eligible, target)| < target
    ensures forall e :: e in eligible && e.kind == ActiveTracking && e.candidate.bucket !in {A1, A2, A3, A4} ==> e in Selected(eligible, target)
    ensures Count(Selected(eligible, target), GroupA) < GroupALimit(target) ==>
              && (forall e :: e in eligible && e.kind == ActiveTracking && e.candidate.bucket in {A2, A3, A4} ==> e in Selected(eligible, target))
              && (GroupALimit(target) > 1 && Winners(eligible) != [] ==> Winners(eligible)[0] in Selected(eligible, target))
              && (|Winners(eligible)| > 1 ==> Winners(eligible)[1] in Selected(eligible, target))
  {
    LaterAppend(eligible, target);
    ActiveMembers(eligible);
    if Count(Selected(eligible, target), GroupA) < GroupALimit(target) {
      GroupAIsTaken(eligible, target);
    }
  }

  lemma ActiveMembers(eligible: seq<Entry>)
    ensures forall e :: e in NonA(eligible) <==> e in eligible && e.kind == ActiveTracking && e.candidate.bucket !in {A1, A2, A3, A4}
    ensures forall e :: e in Traps(eligible) <==> e in eligible && e.kind == ActiveTracking && e.candidate.bucket in {A2, A3, A4}
  {
  }

  /** Every pass only appends, and takes what it is offered while there is room. */
  lemma PassesAppend(eligible: seq<Entry>, target: nat)
    ensures Opening(eligible, target) <= WithFirstA(eligible, target) <= Selected(eligible, target)
    ensures Trapped(eligible, target) <= MoreTraps(eligible, target) <= Selected(eligible, target)
  {
    FirstPasses(eligible, target);
    LaterAppend(eligible, target);
  }

  lemma FirstPasses(eligible: seq<Entry>, target: nat)
    ensures Opening(eligible, target) <= WithGroupB(eligible, target) <= Trapped(eligible, target) <= WithFirstA(eligible, target)
  {
    TakeUntilTakes(Opening(eligible, target), NonAGroupB(eligible), target, GroupB, GroupBMinimum(target));
    TrapAppends(eligible, target);
    WinnerAppends(eligible, target);
  }

  lemma TrapAppends(eligible: seq<Entry>, target: nat)
    ensures WithGroupB(eligible, target) <= Trapped(eligible, target)
  {
    FirstTaken(WithGroupB(eligible, target), Traps(eligible), target);
  }

  lemma WinnerAppends(eligible: seq<Entry>, target: nat)
    ensures Trapped(eligible, target) <= WithFirstA(eligible, target)
  {
    FirstTaken(Trapped(eligible, target), Winners(eligible), target);
  }

  lemma LaterAppend(eligible: seq<Entry>, target: nat)
    ensures WithFirstA(eligible, target) <= MoreTraps(eligible, target) <= Selected(eligible, target)
    ensures |Selected(eligible, target)| < target ==> forall e :: e in NonA(eligible) ==> e in Selected(eligible, target)
  {
    TakeAllTakes(WithFirstA(eligible, target), NonA(eligible), target);
    TakeUntilTakes(Filled(eligible, target), Rest(Traps(eligible)), target, GroupA, GroupALimit(target));
    TakeUntilTakes(MoreTraps(eligible, target), SecondWinner(eligible), target, GroupA, GroupALimit(target));
  }

  lemma {:induction false} PrefixCount(front: seq<Entry>, all: seq<Entry>, group: Bucket -> bool)
    requires front <= all
    ensures Count(front, group) <= Count(all, group)
    decreases |all|
  {
    if |front| < |all| {
      PrefixCount(front, all[..|all| - 1], group);
    } else {
      assert front == all;
    }
  }

  lemma GroupAIsTaken(eligible: seq<Entry>, target: nat)
    requires |Selected(eligible, target)| < target && Count(Selected(eligible, target), GroupA) < GroupALimit(target)
    ensures forall e :: e in Traps(eligible) ==> e in Selected(eligible, target)
    ensures GroupALimit(target) > 1 && Winners(eligible) != [] ==> Winners(eligible)[0] in Selected(eligible, target)
    ensures |Winners(eligible)| > 1 ==> Winners(eligible)[1] in Selected(eligible, target)
  {
    PassesAppend(eligible, target);
    PrefixCount(MoreTraps(eligible, target), Selected(eligible, target), GroupA);
    TrapsAreTaken(eligible, target);
    WinnersAreTaken(eligible, target);
  }

  lemma TrapsAreTaken(eligible: seq<Entry>, target: nat)
    requires |MoreTraps(eligible, target)| < target && Count(MoreTraps(eligible, target), GroupA) < GroupALimit(target)
    requires Trapped(eligible, target) <= MoreTraps(eligible, target)
    ensures forall e :: e in Traps(eligible) ==> e in MoreTraps(eligible, target)
  {
    var traps, m := Traps(eligible), MoreTraps(eligible, target);
    FirstTaken(WithGroupB(eligible, target), traps, target);
    TakeUntilTakes(Filled(eligible, target), Rest(traps), target, GroupA, GroupALimit(target));
    forall e | e in traps ensures e in m {
      var i :| 0 <= i < |traps| && traps[i] == e;
      assert i > 0 ==> Rest(traps)[i - 1] == e;
    }
  }

  lemma WinnersAreTaken(eligible: seq<Entry>, target: nat)
    requires |Selected(eligible, target)| < target && Count(Selected(eligible, target), GroupA) < GroupALimit(target)
    requires WithFirstA(eligible, target) <= Selected(eligible, target)
    ensures GroupALimit(target) > 1 && Winners(eligible) != [] ==> Winners(eligible)[0] in Selected(eligible, target)
    ensures |Winners(eligible)| > 1 ==> Winners(eligible)[1] in Selected(eligible, target)
  {
    FirstTaken(Trapped(eligible, target), Winners(eligible), target);
    TakeUntilTakes(MoreTraps(eligible, target), SecondWinner(eligible), target, GroupA, GroupALimit(target));
    if |Winners(eligible)| > 1 {
      assert SecondWinner(eligible)[0] == Winners(eligible)[1];
    }
  }

  lemma FirstTaken(selected: seq<Entry>, choices: seq<Entry>, target: nat)
    ensures var r := TakeFirst(selected, choices, target); selected <= r && (choices != [] && |r| < target ==> choices[0] in r)
  {
  }

  /** The entry is the first of the list of this kind and in these buckets. */
  ghost predicate FirstWith(entries: seq<Entry>, kind: Kind, buckets: set<Bucket>, e: Entry) {
    exists i :: 0 <= i < |entries| && entries[i] == e && Is(e, kind, buckets) && forall k :: 0 <= k < i ==> !Is(entries[k], kind, buckets)
  }

  predicate Is(e: Entry, kind: Kind, buckets: set<Bucket>) {
    e.kind == kind && e.candidate.bucket in buckets
  }

  ghost predicate HasOne(entries: seq<Entry>, kind: Kind, buckets: set<Bucket>) {
    exists e :: e in entries && Is(e, kind, buckets)
  }

  lemma {:induction false} FilterTwice(entries: seq<Entry>, first: Entry -> bool, second: Entry -> bool, both: Entry -> bool)
    requires forall e :: both(e) <==> first(e) && second(e)
    ensures Filter(Filter(entries, first), second) == Filter(entries, both)
  {
    if entries != [] {
      var front, last := entries[..|entries| - 1], entries[|entries| - 1];
      FilterTwice(front, first, second, both);
      var kept := Filter(front, first);
      assert Filter(entries, first) == kept + if first(last) then [last] else [];
      assert (kept + [last])[..|kept|] == kept && kept + [] == kept;
      assert Filter(entries, both) == Filter(front, both) + if both(last) then [last] else [];
    }
  }

  predicate FirstAt(entries: seq<Entry>, wanted: Entry -> bool, i: nat) {
    i < |entries| && wanted(entries[i]) && forall k :: 0 <= k < i ==> !wanted(entries[k])
  }

  lemma {:induction false} FilterFirst(entries: seq<Entry>, wanted: Entry -> bool) returns (i: nat)
    requires Filter(entries, wanted) != []
    ensures FirstAt(entries, wanted, i) && Filter(entries, wanted)[0] == entries[i]
  {
    var front, last := entries[..|entries| - 1], entries[|entries| - 1];
    if Filter(front, wanted) != [] {
      i := FilterFirst(front, wanted);
    } else {
      i := |front|;
      forall k | 0 <= k < |front| ensures !wanted(entries[k]) {
        assert entries[k] == front[k] && front[k] in front;
      }
    }
  }

  /** Filtering twice keeps the order, so its first entry is the first one that passes both. */
  lemma FirstKept(entries: seq<Entry>, first: Entry -> bool, second: Entry -> bool, kind: Kind, buckets: set<Bucket>)
    requires forall e :: first(e) && second(e) <==> Is(e, kind, buckets)
    ensures var r := Filter(Filter(entries, first), second);
            (r != [] <==> HasOne(entries, kind, buckets)) && (r != [] ==> FirstWith(entries, kind, buckets, r[0]))
  {
    FilterTwice(entries, first, second, (e: Entry) => Is(e, kind, buckets));
    var r := Filter(entries, (e: Entry) => Is(e, kind, buckets));
    if r != [] {
      var i := FilterFirst(entries, (e: Entry) => Is(e, kind, buckets));
      assert r[0] in r;
    }
  }

  const EVERY: set<Bucket> := set b: Bucket | true

  /** A larger batch starts with the first audit-only dead token, or else with the first audit-only entry. */
  lemma AuditComesFirst(eligible: seq<Entry>, target: nat)
    requires target >= 6
    ensures var s, dead := Selected(eligible, target), HasOne(eligible, AuditOnly, {D1});
            HasOne(eligible, AuditOnly, EVERY) ==> s != [] && FirstWith(eligible, AuditOnly, if dead then {D1} else EVERY, s[0])
    ensures AuditPick(eligible, target) != [] <==> HasOne(eligible, AuditOnly, EVERY)
  {
    FirstKept(eligible, (e: Entry) => e.kind == AuditOnly, (e: Entry) => e.candidate.bucket == D1, AuditOnly, {D1});
    FirstAudit(eligible);
    OpeningHead(eligible, target);
    PassesAppend(eligible, target);
  }

  lemma OpeningHead(eligible: seq<Entry>, target: nat)
    requires target >= 6
    ensures AuditPick(eligible, target) != [] ==> Opening(eligible, target) != [] && Opening(eligible, target)[0] == AuditPick(eligible, target)[0]
  {
    var audited := TakeFirst([], AuditPick(eligible, target), target);
    FirstTaken(audited, DecayOrD(eligible), target);
  }

  lemma FirstAudit(eligible: seq<Entry>)
    ensures AuditWatch(eligible) != [] <==> HasOne(eligible, AuditOnly, EVERY)
    ensures AuditWatch(eligible) != [] ==> FirstWith(eligible, AuditOnly, EVERY, AuditWatch(eligible)[0])
  {
    var watch := AuditWatch(eligible);
    if watch != [] {
      var i := FilterFirst(eligible, (e: Entry) => e.kind == AuditOnly);
      assert watch[0] in watch && Is(watch[0], AuditOnly, EVERY);
    }
    if e :| e in eligible && Is(e, AuditOnly, EVERY) {
      assert e in watch;
    }
  }

  /** After it comes the first active entry of B2 and B4, or else the first of group B and group D. */
  lemma DecayComesNext(eligible: seq<Entry>, target: nat)
    requires |AuditPick(eligible, target)| < target
    ensures var s, p, decay := Selected(eligible, target), |AuditPick(eligible, target)|, HasOne(eligible, ActiveTracking, {B2, B4});
            HasOne(eligible, ActiveTracking, {B1, B2, B3, B4, B5, D1, D2, D3, D4}) ==>
              p < |s| && FirstWith(eligible, ActiveTracking, if decay then {B2, B4} else {B1, B2, B3, B4, B5, D1, D2, D3, D4}, s[p])
  {
    DecayFirst(eligible);
    GroupBOrDFirst(eligible);
    if DecayOrD(eligible) != [] {
      DecayTaken(eligible, target);
      PassesAppend(eligible, target);
    }
  }

  lemma DecayFirst(eligible: seq<Entry>)
    ensures Decay(eligible) != [] <==> HasOne(eligible, ActiveTracking, {B2, B4})
    ensures Decay(eligible) != [] ==> FirstWith(eligible, ActiveTracking, {B2, B4}, Decay(eligible)[0])
  {
    var outside := (e: Entry) => e.kind == ActiveTracking && !GroupA(e.candidate.bucket);
    FilterTwice(eligible, (e: Entry) => e.kind == ActiveTracking, (e: Entry) => !GroupA(e.candidate.bucket), outside);
    FirstKept(eligible, outside, (e: Entry) => DecayBucket(e.candidate.bucket), ActiveTracking, {B2, B4});
  }

  lemma GroupBOrDFirst(eligible: seq<Entry>)
    ensures GroupBOrD(eligible) != [] <==> HasOne(eligible, ActiveTracking, {B1, B2, B3, B4, B5, D1, D2, D3, D4})
    ensures GroupBOrD(eligible) != [] ==> FirstWith(eligible, ActiveTracking, {B1, B2, B3, B4, B5, D1, D2, D3, D4}, GroupBOrD(eligible)[0])
  {
    var outside := (e: Entry) => e.kind == ActiveTracking && !GroupA(e.candidate.bucket);
    FilterTwice(eligible, (e: Entry) => e.kind == ActiveTracking, (e: Entry) => !GroupA(e.candidate.bucket), outside);
    FirstKept(eligible, outside, (e: Entry) => GroupB(e.candidate.bucket) || GroupD(e.candidate.bucket), ActiveTracking,
              {B1, B2, B3, B4, B5, D1, D2, D3, D4});
  }

  lemma DecayTaken(eligible: seq<Entry>, target: nat)
    requires |AuditPick(eligible, target)| < target && DecayOrD(eligible) != []
    ensures var p := |AuditPick(eligible, target)|; p < |Opening(eligible, target)| && Opening(eligible, target)[p] == DecayOrD(eligible)[0]
  {
    AuditPickShape(eligible, target);
    var audited := TakeFirst([], AuditPick(eligible, target), target);
    var next := DecayOrD(eligible)[0];
    assert next in DecayOrD(eligible) && next in NonA(eligible) && next in ActiveOf(eligible);
    assert next !in audited;
  }

  /** An eligible entry that was not selected is rejected as one winner too many when it is one, and
      otherwise for the quota of the batch. */
  lemma {:induction false} LeftOverReasons(selected: seq<Entry>, eligible: seq<Entry>, r: Rejection)
    requires r in LeftOver(selected, eligible)
    ensures r.reason == if r.candidate.bucket == A1 then WinnerCapExceeded else BatchQuotaExceeded
    decreases |eligible|
  {
    if r in LeftOver(selected, eligible[..|eligible| - 1]) {
      LeftOverReasons(selected, eligible[..|eligible| - 1], r);
    }
  }

  lemma CapsMet(eligible: seq<Entry>, target: nat)
    requires !PicksGroup(AuditPick(eligible, target), GroupA)
    ensures Count(Selected(eligible, target), GroupA) <= GroupALimit(target)
    ensures Count(Selected(eligible, target), Winner) <= 2
  {
    FirstACounts(eligible, target);
    SelectedCounts(eligible, target);
  }
}
