/** Choice of one bounded evaluation batch from the graduated registry. */
module RefreshBatch {
  import opened Common
  import opened Ordering
  import opened SeededShuffle

  datatype Row = Row(mint: string, pool: string, market: string, lifecycle: string, graduationBlockTime: int)

  type SeededDigest = (string, nat) -> nat

  /** Python slices stop at the end of the list. */
  function Slice<T>(s: seq<T>, lo: nat, hi: nat): seq<T>
    requires lo <= hi
  {
    s[if lo <= |s| then lo else |s|..if hi <= |s| then hi else |s|]
  }

  /** Half of the batch for each partition, the rest of the batch from whichever still has rows. */
  function Combine<T>(latest: seq<T>, persisted: seq<T>, maxCandidates: nat): seq<T>
    requires maxCandidates > 0
  {
    if latest == [] || persisted == [] then
      Slice(if latest != [] then latest else persisted, 0, maxCandidates)
    else
      var latestCap := Max(1, maxCandidates / 2);
      var persistedCap := Max(1, maxCandidates - latestCap);
      var selected := Slice(latest, 0, latestCap) + Slice(persisted, 0, persistedCap);
      var remaining := maxCandidates - |selected|;
      var more := if remaining > 0 then selected + Slice(latest, latestCap, latestCap + remaining) else selected;
      var left := maxCandidates - |more|;
      if left > 0 then more + Slice(persisted, persistedCap, persistedCap + left) else more
  }

  function MintKey(row: Row): seq<string> {
    [row.mint]
  }

  function MintOf(row: Row): string {
    row.mint
  }

  function Partition(rows: seq<Row>, wanted: Row -> bool, seed: string, digest: SeededDigest): seq<Row> {
    SeededOrder(SortBy(Filter(rows, wanted), ByKey(MintKey)), counter => digest(seed, counter))
  }

  function LatestRows(rows: seq<Row>, latestMints: set<string>, seed: string, digest: SeededDigest, excluded: set<string>): seq<Row> {
    Partition(rows, OpenLatest(latestMints, excluded), seed + "|REFRESH_LATEST", digest)
  }

  function PersistedRows(rows: seq<Row>, latestMints: set<string>, seed: string, digest: SeededDigest, excluded: set<string>): seq<Row> {
    Partition(rows, OpenPersisted(latestMints, excluded), seed + "|REFRESH_PERSISTED", digest)
  }

  function OpenLatest(latestMints: set<string>, excluded: set<string>): Row -> bool {
    (row: Row) => row.mint !in excluded && row.mint in latestMints
  }

  function OpenPersisted(latestMints: set<string>, excluded: set<string>): Row -> bool {
    (row: Row) => row.mint !in excluded && row.mint !in latestMints
  }

  function OpenRow(excluded: set<string>): Row -> bool {
    (row: Row) => row.mint !in excluded
  }

  function BoundedRefreshRows(
    rows: seq<Row>, latestMints: set<string>, seed: string, digest: SeededDigest, maxCandidates: int, excluded: set<string>): seq<Row>
  {
    if maxCandidates <= 0 then []
    else
      Combine(LatestRows(rows, latestMints, seed, digest, excluded), PersistedRows(rows, latestMints, seed, digest, excluded), maxCandidates)
  }

  // ---- Size ----

  /** The batch is filled whenever there are rows to fill it, and it exceeds the requested size
      in exactly one case: a batch of one over two non-empty partitions has two rows. */
  lemma CombineSize<T>(latest: seq<T>, persisted: seq<T>, maxCandidates: nat)
    requires maxCandidates > 0
    ensures |Combine(latest, persisted, maxCandidates)|
         == if maxCandidates == 1 && latest != [] && persisted != [] then 2
            else Min(maxCandidates, |latest| + |persisted|)
  {
  }

  /** A combined batch is a prefix of each partition's order: nothing is skipped or repeated. */
  lemma CombineIsPrefixes<T>(latest: seq<T>, persisted: seq<T>, maxCandidates: nat) returns (a: nat, b: nat)
    requires maxCandidates > 0
    ensures a <= |latest| && b <= |persisted|
    ensures multiset(Combine(latest, persisted, maxCandidates)) == multiset(latest[..a]) + multiset(persisted[..b])
    ensures latest != [] && persisted != [] && maxCandidates >= 2 ==> a >= 1 && b >= 1
  {
    if latest == [] || persisted == [] {
      a, b := Min(maxCandidates, |latest|), if latest != [] then 0 else Min(maxCandidates, |persisted|);
      assert Combine(latest, persisted, maxCandidates) == latest[..a] + persisted[..b];
    } else {
      var p, q;
      p, a, q, b := CombineShape(latest, persisted, maxCandidates);
      Interleaved(latest, persisted, p, a, q, b);
    }
  }

  lemma CombineShape<T>(latest: seq<T>, persisted: seq<T>, maxCandidates: nat) returns (p: nat, a: nat, q: nat, b: nat)
    requires maxCandidates > 0 && latest != [] && persisted != []
    ensures 1 <= p <= a <= |latest| && 1 <= q <= b <= |persisted|
    ensures Combine(latest, persisted, maxCandidates) == latest[..p] + persisted[..q] + latest[p..a] + persisted[q..b]
  {
    var latestCap := Max(1, maxCandidates / 2);
    var persistedCap := Max(1, maxCandidates - latestCap);
    p, q := Min(latestCap, |latest|), Min(persistedCap, |persisted|);
    var remaining := maxCandidates - p - q;
    a := if remaining > 0 then Max(p, Min(latestCap + remaining, |latest|)) else p;
    var left := maxCandidates - a - q;
    b := if left > 0 then Max(q, Min(persistedCap + left, |persisted|)) else q;
  }

  lemma Interleaved<T>(latest: seq<T>, persisted: seq<T>, p: nat, a: nat, q: nat, b: nat)
    requires p <= a <= |latest| && q <= b <= |persisted|
    ensures multiset(latest[..p] + persisted[..q] + latest[p..a] + persisted[q..b])
         == multiset(latest[..a]) + multiset(persisted[..b])
  {
    assert latest[..a] == latest[..p] + latest[p..a];
    assert persisted[..b] == persisted[..q] + persisted[q..b];
  }

  lemma {:induction false} FilterSplits(rows: seq<Row>, a: Row -> bool, b: Row -> bool, c: Row -> bool)
    requires forall row :: c(row) <==> a(row) || b(row)
    requires forall row :: !(a(row) && b(row))
    ensures |Filter(rows, a)| + |Filter(rows, b)| == |Filter(rows, c)|
    ensures multiset(Filter(rows, a)) + multiset(Filter(rows, b)) == multiset(Filter(rows, c))
  {
    if rows != [] {
      FilterSplits(rows[..|rows| - 1], a, b, c);
    }
  }

  lemma PartitionIsPermutation(rows: seq<Row>, wanted: Row -> bool, seed: string, digest: SeededDigest)
    ensures multiset(Partition(rows, wanted, seed, digest)) == multiset(Filter(rows, wanted))
    ensures |Partition(rows, wanted, seed, digest)| == |Filter(rows, wanted)|
    ensures forall x :: x in Partition(rows, wanted, seed, digest) <==> x in rows && wanted(x)
  {
    var kept := Filter(rows, wanted);
    SortIsPermutation(kept, ByKey(MintKey));
    SeededOrderIsPermutation(SortBy(kept, ByKey(MintKey)), counter => digest(seed, counter));
  }

  /** The number of rows the batch may draw from. */
  function AvailableCount(rows: seq<Row>, excluded: set<string>): nat {
    |Filter(rows, OpenRow(excluded))|
  }

  predicate TwoPartitions(rows: seq<Row>, latestMints: set<string>, excluded: set<string>) {
    && (exists i :: 0 <= i < |rows| && rows[i].mint !in excluded && rows[i].mint in latestMints)
    && (exists i :: 0 <= i < |rows| && rows[i].mint !in excluded && rows[i].mint !in latestMints)
  }

  lemma PartitionSizes(rows: seq<Row>, latestMints: set<string>, seed: string, digest: SeededDigest, excluded: set<string>)
    ensures |LatestRows(rows, latestMints, seed, digest, excluded)| + |PersistedRows(rows, latestMints, seed, digest, excluded)|
         == AvailableCount(rows, excluded)
  {
    PartitionIsPermutation(rows, OpenLatest(latestMints, excluded), seed + "|REFRESH_LATEST", digest);
    PartitionIsPermutation(rows, OpenPersisted(latestMints, excluded), seed + "|REFRESH_PERSISTED", digest);
    FilterSplits(rows, OpenLatest(latestMints, excluded), OpenPersisted(latestMints, excluded), OpenRow(excluded));
  }

  lemma PartitionsNonEmpty(rows: seq<Row>, latestMints: set<string>, seed: string, digest: SeededDigest, excluded: set<string>)
    ensures TwoPartitions(rows, latestMints, excluded)
            <==> LatestRows(rows, latestMints, seed, digest, excluded) != [] && PersistedRows(rows, latestMints, seed, digest, excluded) != []
  {
    PartitionIsPermutation(rows, OpenLatest(latestMints, excluded), seed + "|REFRESH_LATEST", digest);
    PartitionIsPermutation(rows, OpenPersisted(latestMints, excluded), seed + "|REFRESH_PERSISTED", digest);
    FilterNonEmpty(rows, OpenLatest(latestMints, excluded));
    FilterNonEmpty(rows, OpenPersisted(latestMints, excluded));
  }

  /** The batch has exactly min(max, available) rows, except that a batch of one drawn over two
      non-empty partitions has two. */
  lemma BatchSize(rows: seq<Row>, latestMints: set<string>, seed: string, digest: SeededDigest, maxCandidates: nat, excluded: set<string>)
    requires maxCandidates > 0
    ensures |BoundedRefreshRows(rows, latestMints, seed, digest, maxCandidates, excluded)|
         == if maxCandidates == 1 && TwoPartitions(rows, latestMints, excluded) then 2
            else Min(maxCandidates, AvailableCount(rows, excluded))
  {
    PartitionSizes(rows, latestMints, seed, digest, excluded);
    PartitionsNonEmpty(rows, latestMints, seed, digest, excluded);
    CombineSize(LatestRows(rows, latestMints, seed, digest, excluded), PersistedRows(rows, latestMints, seed, digest, excluded), maxCandidates);
  }

  lemma FirstOfPartition(rows: seq<Row>, wanted: Row -> bool, seed: string, digest: SeededDigest) returns (a: seq<Row>)
    ensures var part := Partition(rows, wanted, seed, digest); a == part[..Min(1, |part|)]
    ensures |a| <= 1 && (forall x :: x in a ==> x in rows && wanted(x)) && (a == [] ==> forall x :: x in rows ==> !wanted(x))
  {
    var part := Partition(rows, wanted, seed, digest);
    PartitionIsPermutation(rows, wanted, seed, digest);
    a := part[..Min(1, |part|)];
    if a == [] {
      assert part == [];
    }
  }

  /** A batch of one takes the first row of each partition that has one. */
  lemma BatchOfOneTakesEach(rows: seq<Row>, latestMints: set<string>, seed: string, digest: SeededDigest, excluded: set<string>)
    returns (a: seq<Row>, b: seq<Row>)
    ensures BoundedRefreshRows(rows, latestMints, seed, digest, 1, excluded) == a + b
    ensures |a| <= 1 && (forall x :: x in a ==> x in rows && OpenLatest(latestMints, excluded)(x))
    ensures |b| <= 1 && (forall x :: x in b ==> x in rows && OpenPersisted(latestMints, excluded)(x))
    ensures a == [] ==> forall x :: x in rows ==> !OpenLatest(latestMints, excluded)(x)
    ensures b == [] ==> forall x :: x in rows ==> !OpenPersisted(latestMints, excluded)(x)
  {
    a := FirstOfPartition(rows, OpenLatest(latestMints, excluded), seed + "|REFRESH_LATEST", digest);
    b := FirstOfPartition(rows, OpenPersisted(latestMints, excluded), seed + "|REFRESH_PERSISTED", digest);
    CombineOne(LatestRows(rows, latestMints, seed, digest, excluded), PersistedRows(rows, latestMints, seed, digest, excluded));
  }

  lemma CombineOne<T>(latest: seq<T>, persisted: seq<T>)
    ensures Combine(latest, persisted, 1) == latest[..Min(1, |latest|)] + persisted[..Min(1, |persisted|)]
  {
  }

  lemma FilterNonEmpty(rows: seq<Row>, wanted: Row -> bool)
    ensures Filter(rows, wanted) != [] <==> exists i :: 0 <= i < |rows| && wanted(rows[i])
  {
    if Filter(rows, wanted) != [] {
      assert Filter(rows, wanted)[0] in Filter(rows, wanted);
    }
    if i :| 0 <= i < |rows| && wanted(rows[i]) {
      assert rows[i] in Filter(rows, wanted);
    }
  }

  lemma PartitionRows(rows: seq<Row>, wanted: Row -> bool, seed: string, digest: SeededDigest)
    requires DistinctBy(rows, MintOf)
    ensures DistinctBy(Partition(rows, wanted, seed, digest), MintOf)
    ensures forall x :: x in Partition(rows, wanted, seed, digest) <==> x in rows && wanted(x)
  {
    PartitionIsPermutation(rows, wanted, seed, digest);
    FilterDistinctBy(rows, wanted, MintOf);
    PermutationDistinctBy(Filter(rows, wanted), Partition(rows, wanted, seed, digest), MintOf);
  }

  /** Every row of the batch is a registry row that was not excluded, and none appears twice. */
  lemma BatchRows(rows: seq<Row>, latestMints: set<string>, seed: string, digest: SeededDigest, maxCandidates: int, excluded: set<string>)
    requires DistinctBy(rows, MintOf)
    ensures var batch := BoundedRefreshRows(rows, latestMints, seed, digest, maxCandidates, excluded);
            && (forall x :: x in batch ==> x in rows && x.mint !in excluded)
            && DistinctBy(batch, MintOf)
  {
    if maxCandidates > 0 {
      PartitionRows(rows, OpenLatest(latestMints, excluded), seed + "|REFRESH_LATEST", digest);
      PartitionRows(rows, OpenPersisted(latestMints, excluded), seed + "|REFRESH_PERSISTED", digest);
      CombineRows(LatestRows(rows, latestMints, seed, digest, excluded), PersistedRows(rows, latestMints, seed, digest, excluded), maxCandidates);
    }
  }

  lemma PrefixesDistinct(latest: seq<Row>, persisted: seq<Row>, a: nat, b: nat)
    requires DistinctBy(latest, MintOf) && DistinctBy(persisted, MintOf) && a <= |latest| && b <= |persisted|
    requires forall x, y :: x in latest && y in persisted ==> x.mint != y.mint
    ensures DistinctBy(latest[..a] + persisted[..b], MintOf)
  {
    var both := latest[..a] + persisted[..b];
    forall i, j | 0 <= i < j < |both| ensures MintOf(both[i]) != MintOf(both[j]) {
      if j < a { assert MintOf(latest[i]) != MintOf(latest[j]); }
      else if i >= a { assert MintOf(persisted[i - a]) != MintOf(persisted[j - a]); }
      else { assert both[i] in latest && both[j] in persisted; }
    }
  }

  lemma CombineRows(latest: seq<Row>, persisted: seq<Row>, maxCandidates: nat)
    requires maxCandidates > 0
    requires DistinctBy(latest, MintOf) && DistinctBy(persisted, MintOf)
    requires forall x, y :: x in latest && y in persisted ==> x.mint != y.mint
    ensures forall x :: x in Combine(latest, persisted, maxCandidates) ==> x in latest || x in persisted
    ensures DistinctBy(Combine(latest, persisted, maxCandidates), MintOf)
  {
    var a, b := CombineIsPrefixes(latest, persisted, maxCandidates);
    ArrangedPrefixes(latest, persisted, a, b, Combine(latest, persisted, maxCandidates));
  }

  lemma ArrangedPrefixes(latest: seq<Row>, persisted: seq<Row>, a: nat, b: nat, batch: seq<Row>)
    requires DistinctBy(latest, MintOf) && DistinctBy(persisted, MintOf) && a <= |latest| && b <= |persisted|
    requires forall x, y :: x in latest && y in persisted ==> x.mint != y.mint
    requires multiset(batch) == multiset(latest[..a]) + multiset(persisted[..b])
    ensures DistinctBy(batch, MintOf) && forall x :: x in batch ==> x in latest || x in persisted
  {
    var both := latest[..a] + persisted[..b];
    PrefixesDistinct(latest, persisted, a, b);
    PermutationMembers(both, batch);
    PermutationDistinctBy(both, batch, MintOf);
  }

  // ---- Provider order ----

  lemma {:induction false} FilterCounts(rows: seq<Row>, wanted: Row -> bool, x: Row)
    ensures multiset(Filter(rows, wanted))[x] == if wanted(x) then multiset(rows)[x] else 0
  {
    if rows != [] {
      FilterCounts(rows[..|rows| - 1], wanted, x);
      assert rows == rows[..|rows| - 1] + [rows[|rows| - 1]];
    }
  }

  lemma FilterIgnoresOrder(a: seq<Row>, b: seq<Row>, wanted: Row -> bool)
    requires multiset(a) == multiset(b)
    ensures multiset(Filter(a, wanted)) == multiset(Filter(b, wanted))
  {
    forall x ensures multiset(Filter(a, wanted))[x] == multiset(Filter(b, wanted))[x] {
      FilterCounts(a, wanted, x);
      FilterCounts(b, wanted, x);
    }
  }

  lemma PartitionIgnoresOrder(a: seq<Row>, b: seq<Row>, wanted: Row -> bool, seed: string, digest: SeededDigest)
    requires multiset(a) == multiset(b) && DistinctBy(a, MintOf)
    ensures Partition(a, wanted, seed, digest) == Partition(b, wanted, seed, digest)
  {
    FilterIgnoresOrder(a, b, wanted);
    ByKeyIsComparison(MintKey);
    var ka := Filter(a, wanted);
    forall x, y | x in ka && y in ka && ByKey(MintKey)(x, y) && ByKey(MintKey)(y, x) ensures x == y {
      assert MintKey(x)[0] == MintKey(y)[0];
      if x != y {
        DistinctByMembers(a, MintOf, x, y);
        assert false;
      }
    }
    SortIgnoresArrivalOrder(ka, Filter(b, wanted), ByKey(MintKey));
  }

  /** The batch depends on the registry's contents, not on the order in which rows are listed. */
  lemma BatchIgnoresProviderOrder(
    a: seq<Row>, b: seq<Row>, latestMints: set<string>, seed: string, digest: SeededDigest, maxCandidates: int, excluded: set<string>)
    requires multiset(a) == multiset(b) && DistinctBy(a, MintOf)
    ensures BoundedRefreshRows(a, latestMints, seed, digest, maxCandidates, excluded)
         == BoundedRefreshRows(b, latestMints, seed, digest, maxCandidates, excluded)
  {
    PartitionIgnoresOrder(a, b, OpenLatest(latestMints, excluded), seed + "|REFRESH_LATEST", digest);
    PartitionIgnoresOrder(a, b, OpenPersisted(latestMints, excluded), seed + "|REFRESH_PERSISTED", digest);
  }
}
