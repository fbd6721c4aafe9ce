/** Merge of provider observations into candidates by exact mint, market and lifecycle. */
module IdentityMerge {
  import opened Common
  import opened IdentityKeys

  datatype Observation = Observation(
    id: string, channel: string, mint: string, venue: string, pool: string, lifecycle: string,
    originConfirmed: bool, graduationNative: bool)

  datatype OriginState = Pending | Confirmed

  datatype Route = PumpCreate | GraduationNative

  datatype Merged = Merged(
    candidateId: Option<ObjectId>, mint: string, market: string, lifecycle: string,
    channels: set<string>, observationIds: seq<string>, gaps: nat, origin: OriginState, route: Route)

  datatype Fault = MintIdentityRequired | MissingBatchScopedIdentity

  function MarketIdentity(venue: string, pool: string): string {
    "solana-mainnet:" + venue + ":" + pool
  }

  function KeyOf(o: Observation): Option<string> {
    CandidateIdentityKey(o.mint, MarketIdentity(o.venue, o.pool), o.lifecycle)
  }

  function ConfirmedMints(observations: seq<Observation>): set<string> {
    set o | o in observations && o.originConfirmed :: o.mint
  }

  function Fresh(digest: TextDigest, batchId: string, key: string, o: Observation): Merged {
    Merged(BatchScopedObjectId(digest, "candidate", batchId, [key]), o.mint, MarketIdentity(o.venue, o.pool),
           o.lifecycle, {}, [], 0, Pending, PumpCreate)
  }

  /** One observation joins a candidate. */
  function Join(c: Merged, o: Observation, confirmedMints: set<string>): Merged {
    var confirmed := o.originConfirmed || o.mint in confirmedMints;
    c.(observationIds := if o.id in c.observationIds then c.observationIds else c.observationIds + [o.id],
    channels := c.channels + {o.channel},
    route := if o.graduationNative then GraduationNative else c.route,
    origin := if confirmed then Confirmed else c.origin,
    gaps := if !confirmed && c.origin != Confirmed then c.gaps + 1 else c.gaps)
  }

  type Candidates = map<string, Merged>

  function Absorb(digest: TextDigest, batchId: string, merged: Candidates, o: Observation, confirmedMints: set<string>): Candidates
    requires KeyOf(o).Some?
  {
    var key := KeyOf(o).value;
    merged[key := Join(if key in merged then merged[key] else Fresh(digest, batchId, key, o), o, confirmedMints)]
  }

  predicate AllKeyed(observations: seq<Observation>) {
    forall i :: 0 <= i < |observations| ==> KeyOf(observations[i]).Some?
  }

  function AbsorbAll(digest: TextDigest, batchId: string, observations: seq<Observation>, confirmedMints: set<string>): Candidates
    requires AllKeyed(observations)
  {
    if observations == [] then map[]
    else
      Absorb(digest, batchId, AbsorbAll(digest, batchId, observations[..|observations| - 1], confirmedMints),
             observations[|observations| - 1], confirmedMints)
  }

  lemma KeyedStep(observations: seq<Observation>, i: nat)
    requires i < |observations| && AllKeyed(observations[..i]) && KeyOf(observations[i]).Some?
    ensures AllKeyed(observations[..i + 1])
  {
    var longer := observations[..i + 1];
    assert longer == observations[..i] + [observations[i]];
  }

  /** The first fault of a merge: an observation without a mint has no key, and a blank batch cannot
      own the identifier of the first candidate. */
  function MergeFault(batchId: string, observations: seq<Observation>): Option<Fault> {
    if observations == [] then None
    else if KeyOf(observations[0]).None? then Some(MintIdentityRequired)
    else if Trim(batchId) == "" then Some(MissingBatchScopedIdentity)
    else if !AllKeyed(observations) then Some(MintIdentityRequired)
    else None
  }

  /** The loop of the source; the map entry is the candidate object it mutates. */
  method Merge(digest: TextDigest, batchId: string, observations: seq<Observation>)
    returns (r: Result<Candidates, Fault>)
    ensures MergeFault(batchId, observations) == if r.Err? then Some(r.error) else None
    ensures r.Ok? ==> r.value == AbsorbAll(digest, batchId, observations, ConfirmedMints(observations))
  {
    assert observations[..|observations|] == observations;
    var confirmedMints := ConfirmedMints(observations);
    var merged: Candidates := map[];
    for i := 0 to |observations|
      invariant AllKeyed(observations[..i]) && (i > 0 ==> KeyOf(observations[0]).Some? && Trim(batchId) != "")
      invariant merged == AbsorbAll(digest, batchId, observations[..i], confirmedMints)
    {
      if KeyOf(observations[i]).None? {
        return Err(MintIdentityRequired);
      }
      if KeyOf(observations[i]).value !in merged && Trim(batchId) == "" {
        return Err(MissingBatchScopedIdentity);
      }
      KeyedStep(observations, i);
      AbsorbAllStep(digest, batchId, observations, i, confirmedMints);
      merged := AbsorbObservation(digest, batchId, merged, observations[i], confirmedMints);
    }
    return Ok(merged);
  }

  method AbsorbObservation(digest: TextDigest, batchId: string, before: Candidates, o: Observation, confirmedMints: set<string>)
    returns (merged: Candidates)
    requires KeyOf(o).Some?
    ensures merged == Absorb(digest, batchId, before, o, confirmedMints)
  {
    var key := KeyOf(o).value;
    merged := before;
    if key !in merged {
      merged := merged[key := Fresh(digest, batchId, key, o)];
    }
    merged := merged[key := Join(merged[key], o, confirmedMints)];
  }

  lemma AbsorbAllStep(digest: TextDigest, batchId: string, observations: seq<Observation>, i: nat, confirmedMints: set<string>)
    requires i < |observations| && AllKeyed(observations[..i]) && KeyOf(observations[i]).Some? && AllKeyed(observations[..i + 1])
    ensures AbsorbAll(digest, batchId, observations[..i + 1], confirmedMints)
         == Absorb(digest, batchId, AbsorbAll(digest, batchId, observations[..i], confirmedMints), observations[i], confirmedMints)
  {
    assert observations[..i + 1][..i] == observations[..i];
  }

  // ---- What the merged map says about the observations, without mentioning their order ----

  ghost predicate InGroup(o: Observation, key: string) {
    KeyOf(o) == Some(key)
  }

  ghost predicate DescribesCandidate(
    digest: TextDigest, batchId: string, c: Merged, key: string, observations: seq<Observation>, confirmedMints: set<string>)
  {
    && c.candidateId == BatchScopedObjectId(digest, "candidate", batchId, [key])
    && CandidateIdentityKey(c.mint, c.market, c.lifecycle) == Some(key)
    && Distinct(c.observationIds)
    && (forall x :: x in c.observationIds <==> exists o :: o in observations && InGroup(o, key) && o.id == x)
    && (forall x :: x in c.channels <==> exists o :: o in observations && InGroup(o, key) && o.channel == x)
    && (c.origin == Confirmed <==> exists o :: o in observations && InGroup(o, key) && o.mint in confirmedMints)
    && (c.route == GraduationNative <==> exists o :: o in observations && InGroup(o, key) && o.graduationNative)
  }

  ghost predicate Describes(
    digest: TextDigest, batchId: string, merged: Candidates, observations: seq<Observation>, confirmedMints: set<string>)
  {
    && (forall key :: key in merged <==> exists o :: o in observations && InGroup(o, key))
    && (forall key :: key in merged ==> DescribesCandidate(digest, batchId, merged[key], key, observations, confirmedMints))
  }

  lemma EmptyGroup(digest: TextDigest, batchId: string, key: string, o: Observation, observations: seq<Observation>, confirmedMints: set<string>)
    requires InGroup(o, key)
    requires forall p :: p in observations ==> !InGroup(p, key)
    ensures DescribesCandidate(digest, batchId, Fresh(digest, batchId, key, o), key, observations, confirmedMints)
  {
  }

  lemma JoinGroup(digest: TextDigest, batchId: string, c: Merged, key: string, o: Observation, observations: seq<Observation>, confirmedMints: set<string>)
    requires InGroup(o, key) && (o.originConfirmed ==> o.mint in confirmedMints)
    requires DescribesCandidate(digest, batchId, c, key, observations, confirmedMints)
    ensures DescribesCandidate(digest, batchId, Join(c, o, confirmedMints), key, observations + [o], confirmedMints)
  {
    var d, all := Join(c, o, confirmedMints), observations + [o];
    assert forall p :: p in all <==> p in observations || p == o;
    forall x ensures x in d.observationIds <==> exists p :: p in all && InGroup(p, key) && p.id == x {
      if x in c.observationIds {
        var p :| p in observations && InGroup(p, key) && p.id == x;
        assert p in all;
      }
    }
    forall x ensures x in d.channels <==> exists p :: p in all && InGroup(p, key) && p.channel == x {
      if x in c.channels {
        var p :| p in observations && InGroup(p, key) && p.channel == x;
        assert p in all;
      }
    }
  }

  lemma OtherGroup(digest: TextDigest, batchId: string, c: Merged, key: string, o: Observation, observations: seq<Observation>, confirmedMints: set<string>)
    requires !InGroup(o, key)
    requires DescribesCandidate(digest, batchId, c, key, observations, confirmedMints)
    ensures DescribesCandidate(digest, batchId, c, key, observations + [o], confirmedMints)
  {
    assert forall p :: p in observations + [o] && InGroup(p, key) <==> p in observations && InGroup(p, key);
  }

  lemma DescribesStep(digest: TextDigest, batchId: string, merged: Candidates, observations: seq<Observation>, o: Observation, confirmedMints: set<string>)
    requires KeyOf(o).Some? && (o.originConfirmed ==> o.mint in confirmedMints)
    requires Describes(digest, batchId, merged, observations, confirmedMints)
    ensures Describes(digest, batchId, Absorb(digest, batchId, merged, o, confirmedMints), observations + [o], confirmedMints)
  {
    var key := KeyOf(o).value;
    var c := if key in merged then merged[key] else Fresh(digest, batchId, key, o);
    var after := merged[key := Join(c, o, confirmedMints)];
    if key !in merged {
      EmptyGroup(digest, batchId, key, o, observations, confirmedMints);
    }
    JoinGroup(digest, batchId, c, key, o, observations, confirmedMints);
    forall k | k in after ensures DescribesCandidate(digest, batchId, after[k], k, observations + [o], confirmedMints) {
      if k != key {
        OtherGroup(digest, batchId, merged[k], k, o, observations, confirmedMints);
      }
    }
    forall k ensures k in after <==> exists p :: p in observations + [o] && InGroup(p, k) {
      if k in merged {
        var p :| p in observations && InGroup(p, k);
        assert p in observations + [o];
      } else if k == key {
        assert o in observations + [o] && InGroup(o, k);
      }
    }
  }

  /** The merged map is exactly the grouping of the observations by identity key. */
  lemma {:induction false} MergeDescribes(digest: TextDigest, batchId: string, observations: seq<Observation>, confirmedMints: set<string>)
    requires AllKeyed(observations)
    requires forall o :: o in observations && o.originConfirmed ==> o.mint in confirmedMints
    ensures Describes(digest, batchId, AbsorbAll(digest, batchId, observations, confirmedMints), observations, confirmedMints)
  {
    if observations != [] {
      var front, o := observations[..|observations| - 1], observations[|observations| - 1];
      assert observations == front + [o];
      MergeDescribes(digest, batchId, front, confirmedMints);
      DescribesStep(digest, batchId, AbsorbAll(digest, batchId, front, confirmedMints), front, o, confirmedMints);
    }
  }

  // ---- The order inside a candidate ----

  function GroupOf(observations: seq<Observation>, key: string): seq<Observation> {
    Filter(observations, (o: Observation) => KeyOf(o) == Some(key))
  }

  /** The candidate has the texts of its first observation, and one gap for every observation up to the
      first whose mint is confirmed. */
  predicate StartsWith(c: Merged, group: seq<Observation>, confirmedMints: set<string>) {
    && group != []
    && c.mint == group[0].mint && c.market == "solana-mainnet:" + group[0].venue + ":" + group[0].pool && c.lifecycle == group[0].lifecycle
    && c.gaps <= |group| && (c.origin == Confirmed <==> c.gaps < |group|)
    && (forall i :: 0 <= i < c.gaps ==> group[i].mint !in confirmedMints)
    && (c.gaps < |group| ==> group[c.gaps].mint in confirmedMints)
  }

  lemma JoinStarts(c: Merged, group: seq<Observation>, o: Observation, confirmedMints: set<string>)
    requires StartsWith(c, group, confirmedMints) && (o.originConfirmed ==> o.mint in confirmedMints)
    ensures StartsWith(Join(c, o, confirmedMints), group + [o], confirmedMints)
  {
  }

  lemma FreshStarts(digest: TextDigest, batchId: string, key: string, o: Observation, confirmedMints: set<string>)
    requires o.originConfirmed ==> o.mint in confirmedMints
    ensures StartsWith(Join(Fresh(digest, batchId, key, o), o, confirmedMints), [o], confirmedMints)
  {
  }

  /** For every key: no candidate without an observation, and otherwise the texts of the first one and
      the gaps counted up to the first confirmed one. */
  lemma {:induction false} CandidateStarts(digest: TextDigest, batchId: string, observations: seq<Observation>, confirmedMints: set<string>, key: string)
    requires AllKeyed(observations)
    requires forall o :: o in observations && o.originConfirmed ==> o.mint in confirmedMints
    ensures var merged, group := AbsorbAll(digest, batchId, observations, confirmedMints), GroupOf(observations, key);
            if key in merged then StartsWith(merged[key], group, confirmedMints) else group == []
  {
    if observations != [] {
      var front, o := observations[..|observations| - 1], observations[|observations| - 1];
      assert observations == front + [o];
      CandidateStarts(digest, batchId, front, confirmedMints, key);
      if KeyOf(o) == Some(key) {
        var before := AbsorbAll(digest, batchId, front, confirmedMints);
        if key in before {
          JoinStarts(before[key], GroupOf(front, key), o, confirmedMints);
        } else {
          FreshStarts(digest, batchId, key, o, confirmedMints);
        }
      }
    }
  }

  /** The two faults of a merge, both directions. */
  lemma MergeFaultExactly(batchId: string, observations: seq<Observation>)
    ensures var fault, unkeyed := MergeFault(batchId, observations), exists i :: 0 <= i < |observations| && Trim(observations[i].mint) == "";
            && (fault == Some(MintIdentityRequired)
                <==> observations != [] && (Trim(observations[0].mint) == "" || (Trim(batchId) != "" && unkeyed)))
            && (fault == Some(MissingBatchScopedIdentity) <==> observations != [] && Trim(observations[0].mint) != "" && Trim(batchId) == "")
  {
  }

  // ---- Consequences ----

  /** Every observation belongs to exactly one candidate. */
  lemma ExactlyOneCandidate(digest: TextDigest, batchId: string, merged: Candidates, observations: seq<Observation>, o: Observation)
    requires Describes(digest, batchId, merged, observations, ConfirmedMints(observations))
    requires o in observations && KeyOf(o).Some?
    requires forall p :: p in observations && p.id == o.id ==> p == o
    ensures forall key :: key in merged ==> (o.id in merged[key].observationIds <==> KeyOf(o) == Some(key))
    ensures KeyOf(o).value in merged
  {
    assert InGroup(o, KeyOf(o).value);
    forall key | key in merged ensures o.id in merged[key].observationIds <==> KeyOf(o) == Some(key) {
      assert DescribesCandidate(digest, batchId, merged[key], key, observations, ConfirmedMints(observations));
      if KeyOf(o) == Some(key) {
        assert InGroup(o, key);
      }
    }
  }

  predicate BarFree(o: Observation) {
    '|' !in o.mint && '|' !in o.lifecycle
  }

  lemma {:induction false} TrimKeepsAbsence(s: string, c: char)
    requires c !in s
    ensures c !in Trim(s)
  {
    TrimLeftKeepsAbsence(s, c);
    TrimRightKeepsAbsence(TrimLeft(s), c);
  }

  lemma {:induction false} TrimLeftKeepsAbsence(s: string, c: char)
    requires c !in s
    ensures c !in TrimLeft(s)
    decreases |s|
  {
    if s != [] && IsBlank(s[0]) {
      TrimLeftKeepsAbsence(s[1..], c);
    }
  }

  lemma {:induction false} TrimRightKeepsAbsence(s: string, c: char)
    requires c !in s
    ensures c !in TrimRight(s)
    decreases |s|
  {
    if s != [] && IsBlank(s[|s| - 1]) {
      TrimRightKeepsAbsence(s[..|s| - 1], c);
    }
  }

  /** Observations that share a candidate share its mint, market and lifecycle (up to padding):
      distinct identities are never merged. */
  lemma CandidateHasOneIdentity(o: Observation, p: Observation)
    requires BarFree(o) && BarFree(p) && KeyOf(o).Some? && KeyOf(o) == KeyOf(p)
    ensures Trim(o.mint) == Trim(p.mint) && Trim(o.lifecycle) == Trim(p.lifecycle)
    ensures Trim(MarketIdentity(o.venue, o.pool)) == Trim(MarketIdentity(p.venue, p.pool))
  {
    TrimKeepsAbsence(o.mint, '|');
    TrimKeepsAbsence(o.lifecycle, '|');
    TrimKeepsAbsence(p.mint, '|');
    TrimKeepsAbsence(p.lifecycle, '|');
    JoinKeyInjective(Trim(o.mint), Trim(MarketIdentity(o.venue, o.pool)), Trim(o.lifecycle),
                     Trim(p.mint), Trim(MarketIdentity(p.venue, p.pool)), Trim(p.lifecycle));
  }

  /** Finalized origin is mint-scoped: with mints already free of padding, a candidate is
      confirmed exactly when some observation of the same mint, in any market, is confirmed. */
  lemma ConfirmedByMint(digest: TextDigest, batchId: string, merged: Candidates, observations: seq<Observation>, o: Observation)
    requires Describes(digest, batchId, merged, observations, ConfirmedMints(observations))
    requires o in observations && KeyOf(o).Some?
    requires forall p :: p in observations ==> BarFree(p) && Trim(p.mint) == p.mint
    ensures KeyOf(o).value in merged
    ensures merged[KeyOf(o).value].origin == Confirmed
            <==> exists p :: p in observations && p.mint == o.mint && p.originConfirmed
  {
    var key := KeyOf(o).value;
    assert InGroup(o, key);
    assert DescribesCandidate(digest, batchId, merged[key], key, observations, ConfirmedMints(observations));
    if merged[key].origin == Confirmed {
      var q :| q in observations && InGroup(q, key) && q.mint in ConfirmedMints(observations);
      CandidateHasOneIdentity(o, q);
    }
  }

  /** Two runs over the same observations in any order agree on keys, members, channels,
      origin and route of every candidate. */
  lemma MergeIgnoresOrder(digest: TextDigest, batchId: string, a: Candidates, b: Candidates, os: seq<Observation>, ps: seq<Observation>)
    requires forall o :: o in os <==> o in ps
    requires Describes(digest, batchId, a, os, ConfirmedMints(os))
    requires Describes(digest, batchId, b, ps, ConfirmedMints(ps))
    ensures a.Keys == b.Keys
    ensures forall key :: key in a ==>
              && a[key].candidateId == b[key].candidateId
              && a[key].channels == b[key].channels
              && a[key].origin == b[key].origin
              && a[key].route == b[key].route
              && (forall x :: x in a[key].observationIds <==> x in b[key].observationIds)
  {
    assert ConfirmedMints(os) == ConfirmedMints(ps);
    SameKeys(a, b, os, ps);
    forall key | key in a
      ensures && a[key].candidateId == b[key].candidateId
              && a[key].channels == b[key].channels
              && a[key].origin == b[key].origin
              && a[key].route == b[key].route
              && (forall x :: x in a[key].observationIds <==> x in b[key].observationIds)
    {
      SameGroupSameView(digest, batchId, a[key], b[key], key, os, ps, ConfirmedMints(os));
    }
  }

  lemma SameKeys(a: Candidates, b: Candidates, os: seq<Observation>, ps: seq<Observation>)
    requires forall o :: o in os <==> o in ps
    requires forall key :: key in a <==> exists o :: o in os && InGroup(o, key)
    requires forall key :: key in b <==> exists o :: o in ps && InGroup(o, key)
    ensures a.Keys == b.Keys
  {
    forall key ensures key in a <==> key in b {
      if key in a {
        var o :| o in os && InGroup(o, key);
        assert o in ps;
      }
      if key in b {
        var o :| o in ps && InGroup(o, key);
        assert o in os;
      }
    }
  }

  lemma SameGroupSameView(
    digest: TextDigest, batchId: string, c: Merged, d: Merged, key: string,
    os: seq<Observation>, ps: seq<Observation>, confirmedMints: set<string>)
    requires forall o :: o in os <==> o in ps
    requires DescribesCandidate(digest, batchId, c, key, os, confirmedMints)
    requires DescribesCandidate(digest, batchId, d, key, ps, confirmedMints)
    ensures c.candidateId == d.candidateId && c.channels == d.channels && c.origin == d.origin && c.route == d.route
    ensures forall x :: x in c.observationIds <==> x in d.observationIds
  {
  }
}
