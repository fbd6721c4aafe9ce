/** Intake of migration events: a deduplicating loop over two mutually inverse maps, per round and
    across rounds, with exact accounting of every event. */
module MigrationIntake {
  import opened Common

  /** One frame of a provider page; a field that is not text reads as None. */
  datatype Frame = NotAnObject | Token(mint: Option<string>, signature: Option<string>)

  datatype Pair = Pair(mint: string, signature: string)

  datatype ConflictKind = MintToMultipleSignatures | SignatureToMultipleMints | CrossRoundConflict

  datatype Conflict = Conflict(kind: ConflictKind, pair: Pair)

  datatype Intake = Intake(
    eventsReceived: nat,
    validPairs: seq<Pair>,
    missingMint: nat,
    missingSignature: nat,
    duplicate: nat,
    conflicting: seq<Conflict>)

  const EMPTY := Intake(0, [], 0, 0, 0, [])

  // ---- Specification: pairs compared with the pairs already kept ----

  predicate Touches(p: Pair, q: Pair) {
    p.mint == q.mint || p.signature == q.signature
  }

  predicate Clashes(p: Pair, q: Pair) {
    Touches(p, q) && p != q
  }

  /** No mint has two signatures and no signature has two mints. */
  predicate OneToOne(pairs: seq<Pair>) {
    forall i, j :: 0 <= i < j < |pairs| ==> !Touches(pairs[i], pairs[j])
  }

  predicate Present(text: Option<string>) {
    text.Some? && Trim(text.value) != ""
  }

  function ConflictKindOf(kept: seq<Pair>, p: Pair): ConflictKind {
    if exists i :: 0 <= i < |kept| && kept[i].mint == p.mint && kept[i].signature != p.signature
    then MintToMultipleSignatures else SignatureToMultipleMints
  }

  function Keep(t: Intake, p: Pair, kind: ConflictKind): (r: Intake) {
    if exists i :: 0 <= i < |t.validPairs| && Clashes(t.validPairs[i], p) then
      t.(conflicting := t.conflicting + [Conflict(kind, p)])
    else if p in t.validPairs then t.(duplicate := t.duplicate + 1)
    else t.(validPairs := t.validPairs + [p])
  }

  function Absorb(t: Intake, frame: Frame): (r: Intake) {
    if frame.NotAnObject? then t
    else
      var seen := t.(eventsReceived := t.eventsReceived + 1);
      if !Present(frame.mint) then seen.(missingMint := seen.missingMint + 1)
      else if !Present(frame.signature) then seen.(missingSignature := seen.missingSignature + 1)
      else
        var p := Pair(Trim(frame.mint.value), Trim(frame.signature.value));
        Keep(seen, p, ConflictKindOf(seen.validPairs, p))
  }

  function IntakeOf(frames: seq<Frame>): Intake {
    if frames == [] then EMPTY else Absorb(IntakeOf(frames[..|frames| - 1]), frames[|frames| - 1])
  }

  function KeepAll(t: Intake, pairs: seq<Pair>): Intake
    decreases |pairs|
  {
    if pairs == [] then t
    else Keep(KeepAll(t, pairs[..|pairs| - 1]), pairs[|pairs| - 1], CrossRoundConflict)
  }

  function AddRound(t: Intake, round: Intake): Intake {
    KeepAll(Intake(
              t.eventsReceived + round.eventsReceived,
              t.validPairs,
              t.missingMint + round.missingMint,
              t.missingSignature + round.missingSignature,
              t.duplicate + round.duplicate,
              t.conflicting + round.conflicting),
            round.validPairs)
  }

  function MergeOf(rounds: seq<Intake>): Intake {
    if rounds == [] then EMPTY else AddRound(MergeOf(rounds[..|rounds| - 1]), rounds[|rounds| - 1])
  }

  // ---- The two indexes the code keeps instead of scanning the kept pairs ----

  /** The maps are mutually inverse and hold exactly the kept pairs. */
  ghost predicate Indexes(byMint: map<string, string>, bySignature: map<string, string>, kept: seq<Pair>) {
    && (forall m :: m in byMint ==> byMint[m] in bySignature && bySignature[byMint[m]] == m)
    && (forall s :: s in bySignature ==> bySignature[s] in byMint && byMint[bySignature[s]] == s)
    && (forall i :: 0 <= i < |kept| ==> kept[i].mint in byMint && byMint[kept[i].mint] == kept[i].signature)
    && (forall m :: m in byMint ==> Pair(m, byMint[m]) in kept)
  }

  /** Two map lookups answer the same questions as a scan of the kept pairs. */
  lemma IndexesAnswerScans(byMint: map<string, string>, bySignature: map<string, string>, kept: seq<Pair>, p: Pair)
    requires Indexes(byMint, bySignature, kept)
    ensures (exists i :: 0 <= i < |kept| && kept[i].mint == p.mint && kept[i].signature != p.signature)
            <==> (p.mint in byMint && byMint[p.mint] != p.signature)
    ensures (exists i :: 0 <= i < |kept| && Clashes(kept[i], p))
            <==> ((p.mint in byMint && byMint[p.mint] != p.signature)
                  || (p.signature in bySignature && bySignature[p.signature] != p.mint))
    ensures p in kept <==> (p.mint in byMint && byMint[p.mint] == p.signature)
    ensures p in kept <==> (p.signature in bySignature && bySignature[p.signature] == p.mint)
  {
    if p.mint in byMint {
      var q := Pair(p.mint, byMint[p.mint]);
      assert q in kept;
      var i :| 0 <= i < |kept| && kept[i] == q;
    }
    if p.signature in bySignature {
      var m := bySignature[p.signature];
      assert Pair(m, p.signature) in kept;
      var i :| 0 <= i < |kept| && kept[i] == Pair(m, p.signature);
    }
  }

  lemma IndexesExtend(byMint: map<string, string>, bySignature: map<string, string>, kept: seq<Pair>, p: Pair)
    requires Indexes(byMint, bySignature, kept)
    requires p.mint !in byMint && p.signature !in bySignature
    ensures Indexes(byMint[p.mint := p.signature], bySignature[p.signature := p.mint], kept + [p])
  {
    var byMint', bySignature', kept' := byMint[p.mint := p.signature], bySignature[p.signature := p.mint], kept + [p];
    forall m | m in byMint' ensures Pair(m, byMint'[m]) in kept' {
      if m == p.mint {
        assert kept'[|kept|] == p;
      } else {
        assert Pair(m, byMint[m]) in kept;
      }
    }
    forall m | m in byMint' ensures byMint'[m] in bySignature' && bySignature'[byMint'[m]] == m {
      if m != p.mint {
        assert byMint[m] in bySignature;
      }
    }
    forall i | 0 <= i < |kept'| ensures kept'[i].mint in byMint' && byMint'[kept'[i].mint] == kept'[i].signature {
      if i < |kept| {
        assert kept'[i] == kept[i];
      }
    }
  }

  // ---- The loops of the source ----

  method IntakeMigrationEvents(frames: seq<Frame>) returns (r: Intake)
    ensures r == IntakeOf(frames)
  {
    var valid: seq<Pair>, conflicting: seq<Conflict> := [], [];
    var byMint: map<string, string>, bySignature: map<string, string> := map[], map[];
    var received: nat, missingMint: nat, missingSignature: nat, duplicate: nat := 0, 0, 0, 0;
    for k := 0 to |frames|
      invariant IntakeOf(frames[..k]) == Intake(received, valid, missingMint, missingSignature, duplicate, conflicting)
      invariant Indexes(byMint, bySignature, valid)
    {
      assert frames[..k + 1][..k] == frames[..k];
      var frame := frames[k];
      if frame.NotAnObject? {
        continue;
      }
      received := received + 1;
      if !Present(frame.mint) {
        missingMint := missingMint + 1;
        continue;
      }
      if !Present(frame.signature) {
        missingSignature := missingSignature + 1;
        continue;
      }
      var mint, signature := Trim(frame.mint.value), Trim(frame.signature.value);
      IndexesAnswerScans(byMint, bySignature, valid, Pair(mint, signature));
      if mint in byMint && byMint[mint] != signature {
        conflicting := conflicting + [Conflict(MintToMultipleSignatures, Pair(mint, signature))];
        continue;
      }
      if signature in bySignature && bySignature[signature] != mint {
        conflicting := conflicting + [Conflict(SignatureToMultipleMints, Pair(mint, signature))];
        continue;
      }
      if mint in byMint || signature in bySignature {
        duplicate := duplicate + 1;
        continue;
      }
      IndexesExtend(byMint, bySignature, valid, Pair(mint, signature));
      byMint := byMint[mint := signature];
      bySignature := bySignature[signature := mint];
      valid := valid + [Pair(mint, signature)];
    }
    assert frames[..|frames|] == frames;
    return Intake(received, valid, missingMint, missingSignature, duplicate, conflicting);
  }

  /** Adds one round's pairs to the merged ones, with the same two indexes. */
  method MergeRound(start: Intake, pairs: seq<Pair>, byMint: map<string, string>, bySignature: map<string, string>)
    returns (t: Intake, mints: map<string, string>, signatures: map<string, string>)
    requires Indexes(byMint, bySignature, start.validPairs)
    ensures t == KeepAll(start, pairs) && Indexes(mints, signatures, t.validPairs)
  {
    assert pairs[..|pairs|] == pairs;
    t, mints, signatures := start, byMint, bySignature;
    for i := 0 to |pairs|
      invariant t == KeepAll(start, pairs[..i])
      invariant Indexes(mints, signatures, t.validPairs)
    {
      assert pairs[..i + 1][..i] == pairs[..i];
      var p := pairs[i];
      IndexesAnswerScans(mints, signatures, t.validPairs, p);
      if (p.mint in mints && mints[p.mint] != p.signature) || (p.signature in signatures && signatures[p.signature] != p.mint) {
        t := t.(conflicting := t.conflicting + [Conflict(CrossRoundConflict, p)]);
        continue;
      }
      if p.mint in mints || p.signature in signatures {
        t := t.(duplicate := t.duplicate + 1);
        continue;
      }
      IndexesExtend(mints, signatures, t.validPairs, p);
      mints := mints[p.mint := p.signature];
      signatures := signatures[p.signature := p.mint];
      t := t.(validPairs := t.validPairs + [p]);
    }
  }

  method MergeIntakes(rounds: seq<Intake>) returns (r: Intake)
    ensures r == MergeOf(rounds)
  {
    assert rounds[..|rounds|] == rounds;
    var byMint: map<string, string>, bySignature: map<string, string> := map[], map[];
    r := EMPTY;
    for k := 0 to |rounds|
      invariant r == MergeOf(rounds[..k])
      invariant Indexes(byMint, bySignature, r.validPairs)
    {
      assert rounds[..k + 1][..k] == rounds[..k];
      var round := rounds[k];
      r := Intake(
        r.eventsReceived + round.eventsReceived,
        r.validPairs,
        r.missingMint + round.missingMint,
        r.missingSignature + round.missingSignature,
        r.duplicate + round.duplicate,
        r.conflicting + round.conflicting);
      r, byMint, bySignature := MergeRound(r, round.validPairs, byMint, bySignature);
    }
  }

  // ---- What the two loops promise ----

  /** Every event is accounted for exactly once. */
  predicate Balanced(t: Intake) {
    t.eventsReceived == |t.validPairs| + t.missingMint + t.missingSignature + t.duplicate + |t.conflicting|
  }

  /** A recorded conflict contradicts a kept pair and is never itself kept. */
  predicate ConflictsAreGenuine(t: Intake) {
    forall c :: c in t.conflicting ==>
                  && c.pair !in t.validPairs
                  && exists i :: 0 <= i < |t.validPairs| && Clashes(t.validPairs[i], c.pair)
  }

  /** A contradicting pair is recorded under its mint when a kept pair names that mint with another
      signature, and otherwise under the signature that a kept pair names with another mint. */
  lemma ConflictKindExactly(t: Intake, p: Pair)
    requires exists i :: 0 <= i < |t.validPairs| && Clashes(t.validPairs[i], p)
    ensures var r := Keep(t, p, ConflictKindOf(t.validPairs, p));
            var other := exists q :: q in t.validPairs && q.mint == p.mint && q.signature != p.signature;
            && r.validPairs == t.validPairs && |r.conflicting| == |t.conflicting| + 1
            && r.conflicting[|t.conflicting|] == Conflict(if other then MintToMultipleSignatures else SignatureToMultipleMints, p)
            && (!other ==> exists q :: q in t.validPairs && q.signature == p.signature && q.mint != p.mint)
  {
    if q :| q in t.validPairs && q.mint == p.mint && q.signature != p.signature {
      var i :| 0 <= i < |t.validPairs| && t.validPairs[i] == q;
    } else {
      var i :| 0 <= i < |t.validPairs| && Clashes(t.validPairs[i], p);
      assert t.validPairs[i] in t.validPairs;
    }
  }

  lemma KeepInvariants(t: Intake, p: Pair, kind: ConflictKind)
    requires OneToOne(t.validPairs)
    ensures OneToOne(Keep(t, p, kind).validPairs)
    ensures ConflictsAreGenuine(t) ==> ConflictsAreGenuine(Keep(t, p, kind))
    ensures var r := Keep(t, p, kind);
            |r.validPairs| + r.duplicate + |r.conflicting| == |t.validPairs| + t.duplicate + |t.conflicting| + 1
  {
    var r := Keep(t, p, kind);
    if exists i :: 0 <= i < |t.validPairs| && Clashes(t.validPairs[i], p) {
      var i :| 0 <= i < |t.validPairs| && Clashes(t.validPairs[i], p);
      assert p !in t.validPairs;
    } else if p !in t.validPairs {
      assert forall i :: 0 <= i < |t.validPairs| ==> !Touches(t.validPairs[i], p);
      if ConflictsAreGenuine(t) {
        forall c | c in r.conflicting
          ensures c.pair !in r.validPairs
          ensures exists i :: 0 <= i < |r.validPairs| && Clashes(r.validPairs[i], c.pair)
        {
          var i :| 0 <= i < |t.validPairs| && Clashes(t.validPairs[i], c.pair);
          assert r.validPairs[i] == t.validPairs[i];
        }
      }
    }
  }

  /** Within one round: kept pairs are one-to-one, conflicts are genuine, nothing is uncounted. */
  lemma {:induction false} RoundIsSound(frames: seq<Frame>)
    ensures OneToOne(IntakeOf(frames).validPairs)
    ensures ConflictsAreGenuine(IntakeOf(frames))
    ensures Balanced(IntakeOf(frames))
  {
    if frames != [] {
      var t := IntakeOf(frames[..|frames| - 1]);
      RoundIsSound(frames[..|frames| - 1]);
      var frame := frames[|frames| - 1];
      if frame.Token? && Present(frame.mint) && Present(frame.signature) {
        var seen := t.(eventsReceived := t.eventsReceived + 1);
        var p := Pair(Trim(frame.mint.value), Trim(frame.signature.value));
        KeepInvariants(seen, p, ConflictKindOf(seen.validPairs, p));
      }
    }
  }

  lemma {:induction false} KeepAllInvariants(t: Intake, pairs: seq<Pair>)
    requires OneToOne(t.validPairs)
    ensures var r := KeepAll(t, pairs);
            && OneToOne(r.validPairs)
            && r.eventsReceived == t.eventsReceived && r.missingMint == t.missingMint
            && r.missingSignature == t.missingSignature
            && |r.validPairs| + r.duplicate + |r.conflicting|
               == |t.validPairs| + t.duplicate + |t.conflicting| + |pairs|
    decreases |pairs|
  {
    if pairs != [] {
      KeepAllInvariants(t, pairs[..|pairs| - 1]);
      KeepInvariants(KeepAll(t, pairs[..|pairs| - 1]), pairs[|pairs| - 1], CrossRoundConflict);
    }
  }

  /** After merging any number of balanced rounds the pairs are one-to-one and every event of
      every round is still accounted for exactly once. */
  lemma {:induction false} MergeIsSound(rounds: seq<Intake>)
    requires forall i :: 0 <= i < |rounds| ==> Balanced(rounds[i])
    ensures OneToOne(MergeOf(rounds).validPairs)
    ensures Balanced(MergeOf(rounds))
  {
    if rounds != [] {
      var front, last := rounds[..|rounds| - 1], rounds[|rounds| - 1];
      MergeIsSound(front);
      var t := MergeOf(front);
      KeepAllInvariants(Intake(t.eventsReceived + last.eventsReceived, t.validPairs,
                               t.missingMint + last.missingMint, t.missingSignature + last.missingSignature,
                               t.duplicate + last.duplicate, t.conflicting + last.conflicting),
                        last.validPairs);
    }
  }

  // ---- Merging rounds versus reading all events in one pass ----

  /** The well-formed pairs of a page, in arrival order. */
  function WellFormed(frames: seq<Frame>): seq<Pair> {
    if frames == [] then []
    else
      var last := frames[|frames| - 1];
      WellFormed(frames[..|frames| - 1])
      + (if last.Token? && Present(last.mint) && Present(last.signature)
         then [Pair(Trim(last.mint.value), Trim(last.signature.value))] else [])
  }

  predicate Touched(kept: seq<Pair>, p: Pair) {
    exists i :: 0 <= i < |kept| && Touches(kept[i], p)
  }

  /** First come, first kept. */
  function Kept(start: seq<Pair>, pairs: seq<Pair>): seq<Pair>
    decreases |pairs|
  {
    if pairs == [] then start
    else
      var kept := Kept(start, pairs[..|pairs| - 1]);
      var p := pairs[|pairs| - 1];
      if Touched(kept, p) then kept else kept + [p]
  }

  lemma KeptSnoc(start: seq<Pair>, pairs: seq<Pair>, p: Pair)
    ensures Kept(start, pairs + [p]) == if Touched(Kept(start, pairs), p) then Kept(start, pairs) else Kept(start, pairs) + [p]
  {
    assert (pairs + [p])[..|pairs|] == pairs;
  }

  lemma AbsorbKeeps(t: Intake, frame: Frame)
    requires frame.Token? && Present(frame.mint) && Present(frame.signature)
    ensures var p := Pair(Trim(frame.mint.value), Trim(frame.signature.value));
            Absorb(t, frame).validPairs == if Touched(t.validPairs, p) then t.validPairs else t.validPairs + [p]
  {
    var p := Pair(Trim(frame.mint.value), Trim(frame.signature.value));
    var seen := t.(eventsReceived := t.eventsReceived + 1);
    KeepIsKept(seen, p, ConflictKindOf(seen.validPairs, p));
  }

  lemma {:induction false} IntakeKeeps(frames: seq<Frame>)
    ensures IntakeOf(frames).validPairs == Kept([], WellFormed(frames))
  {
    if frames != [] {
      var front, last := frames[..|frames| - 1], frames[|frames| - 1];
      IntakeKeeps(front);
      if last.Token? && Present(last.mint) && Present(last.signature) {
        AbsorbKeeps(IntakeOf(front), last);
        KeptSnoc([], WellFormed(front), Pair(Trim(last.mint.value), Trim(last.signature.value)));
      } else {
        assert WellFormed(frames) == WellFormed(front);
      }
    }
  }

  lemma KeepIsKept(t: Intake, p: Pair, kind: ConflictKind)
    ensures Keep(t, p, kind).validPairs == if Touched(t.validPairs, p) then t.validPairs else t.validPairs + [p]
  {
    if Touched(t.validPairs, p) {
      var i :| 0 <= i < |t.validPairs| && Touches(t.validPairs[i], p);
      assert t.validPairs[i] == p || Clashes(t.validPairs[i], p);
    }
  }

  lemma {:induction false} KeepAllKeeps(t: Intake, pairs: seq<Pair>)
    ensures KeepAll(t, pairs).validPairs == Kept(t.validPairs, pairs)
    decreases |pairs|
  {
    if pairs != [] {
      KeepAllKeeps(t, pairs[..|pairs| - 1]);
      KeepIsKept(KeepAll(t, pairs[..|pairs| - 1]), pairs[|pairs| - 1], CrossRoundConflict);
    }
  }

  lemma {:induction false} KeptGrows(start: seq<Pair>, pairs: seq<Pair>)
    ensures start <= Kept(start, pairs)
    ensures forall p :: p in Kept(start, pairs) ==> p in start || p in pairs
    ensures forall p :: p in pairs ==> Touched(Kept(start, pairs), p)
    decreases |pairs|
  {
    if pairs != [] {
      var front, last := pairs[..|pairs| - 1], pairs[|pairs| - 1];
      KeptGrows(start, front);
      var kept, all := Kept(start, front), Kept(start, pairs);
      forall p | p in pairs ensures Touched(all, p) {
        if p in front {
          var i :| 0 <= i < |kept| && Touches(kept[i], p);
          assert all[i] == kept[i];
        } else if |all| > |kept| {
          assert Touches(all[|kept|], p);
        }
      }
    }
  }

  /** Reading a round on its own hides a pair when an earlier pair of the round touches it. It does
      no harm when one pass would have skipped the pair as well. */
  predicate HidesNothing(merged: seq<Pair>, pairs: seq<Pair>) {
    forall j :: 0 <= j < |pairs| && Touched(Kept([], pairs[..j]), pairs[j]) ==> Touched(Kept(merged, pairs[..j]), pairs[j])
  }

  lemma HidesNothingFront(merged: seq<Pair>, pairs: seq<Pair>)
    requires pairs != []
    ensures var front, p := pairs[..|pairs| - 1], pairs[|pairs| - 1];
            HidesNothing(merged, pairs)
            <==> HidesNothing(merged, front) && (Touched(Kept([], front), p) ==> Touched(Kept(merged, front), p))
  {
    var front, p := pairs[..|pairs| - 1], pairs[|pairs| - 1];
    assert forall j :: 0 <= j < |front| ==> front[..j] == pairs[..j] && front[j] == pairs[j];
  }

  /** A round kept apart and then merged gives what one pass gives, if nothing is hidden. */
  lemma {:induction false} NothingHiddenMerges(merged: seq<Pair>, pairs: seq<Pair>)
    requires HidesNothing(merged, pairs)
    ensures Kept(merged, Kept([], pairs)) == Kept(merged, pairs)
    decreases |pairs|
  {
    if pairs != [] {
      var front, p := pairs[..|pairs| - 1], pairs[|pairs| - 1];
      HidesNothingFront(merged, pairs);
      NothingHiddenMerges(merged, front);
      if !Touched(Kept([], front), p) {
        KeptSnoc(merged, Kept([], front), p);
      }
    }
  }

  /** A pair that is touched by what was kept up to some point is not kept later. */
  lemma {:induction false} TouchedIsNotAdded(start: seq<Pair>, pairs: seq<Pair>, j: nat, p: Pair)
    requires j <= |pairs| && Touched(Kept(start, pairs[..j]), p) && p in Kept(start, pairs)
    ensures p in Kept(start, pairs[..j])
    decreases |pairs|
  {
    if j == |pairs| {
      assert pairs[..j] == pairs;
    } else {
      var front := pairs[..|pairs| - 1];
      assert front[..j] == pairs[..j];
      KeptExtends(start, front, j);
      TouchedStays(Kept(start, front[..j]), Kept(start, front), p);
      TouchedIsNotAdded(start, front, j, p);
    }
  }

  lemma TouchedStays(kept: seq<Pair>, longer: seq<Pair>, p: Pair)
    requires kept <= longer && Touched(kept, p)
    ensures Touched(longer, p)
  {
    var i :| 0 <= i < |kept| && Touches(kept[i], p);
    assert longer[i] == kept[i];
  }

  lemma {:induction false} KeptExtends(start: seq<Pair>, pairs: seq<Pair>, j: nat)
    requires j <= |pairs|
    ensures Kept(start, pairs[..j]) <= Kept(start, pairs)
    decreases |pairs|
  {
    if j == |pairs| {
      assert pairs[..j] == pairs;
    } else {
      var front := pairs[..|pairs| - 1];
      assert front[..j] == pairs[..j];
      KeptExtends(start, front, j);
    }
  }

  /** A hidden pair that one pass keeps is never among the merged pairs. */
  lemma HiddenPairIsLost(merged: seq<Pair>, pairs: seq<Pair>, j: nat)
    requires j < |pairs| && Touched(Kept([], pairs[..j]), pairs[j]) && !Touched(Kept(merged, pairs[..j]), pairs[j])
    ensures pairs[j] in Kept(merged, pairs) && pairs[j] !in Kept(merged, Kept([], pairs))
  {
    var p, own, both := pairs[j], Kept([], pairs[..j]), Kept(merged, pairs[..j]);
    assert pairs[..j + 1] == pairs[..j] + [p];
    KeptSnoc(merged, pairs[..j], p);
    KeptExtends(merged, pairs, j + 1);
    assert Kept(merged, pairs[..j + 1])[|both|] == p;
    KeptGrows(merged, pairs[..j]);
    if p in Kept(merged, Kept([], pairs)) {
      KeptGrows(merged, Kept([], pairs));
      if p in merged {
        MemberIsTouched(merged, both, p);
      }
      TouchedIsNotAdded([], pairs, j, p);
      KeptGrows([], pairs[..j]);
    }
  }

  lemma MemberIsTouched(kept: seq<Pair>, longer: seq<Pair>, p: Pair)
    requires kept <= longer && p in kept
    ensures Touched(longer, p)
  {
    var i :| 0 <= i < |kept| && kept[i] == p;
    assert Touches(longer[i], p);
  }

  /** One later round, any pairs already merged: the merge keeps exactly what one pass keeps, if and
      only if the round hides no pair that one pass would have kept. */
  lemma MergeEqualsSinglePassExactly(merged: seq<Pair>, pairs: seq<Pair>)
    ensures Kept(merged, Kept([], pairs)) == Kept(merged, pairs) <==> HidesNothing(merged, pairs)
  {
    if HidesNothing(merged, pairs) {
      NothingHiddenMerges(merged, pairs);
    } else {
      var j :| 0 <= j < |pairs| && Touched(Kept([], pairs[..j]), pairs[j]) && !Touched(Kept(merged, pairs[..j]), pairs[j]);
      HiddenPairIsLost(merged, pairs, j);
    }
  }

  // ---- Any number of rounds against one pass over all their events ----

  function AllFrames(rounds: seq<seq<Frame>>): seq<Frame> {
    if rounds == [] then [] else AllFrames(rounds[..|rounds| - 1]) + rounds[|rounds| - 1]
  }

  function Intakes(rounds: seq<seq<Frame>>): (r: seq<Intake>)
    ensures |r| == |rounds|
  {
    if rounds == [] then [] else Intakes(rounds[..|rounds| - 1]) + [IntakeOf(rounds[|rounds| - 1])]
  }

  function MergedPairs(rounds: seq<seq<Frame>>): seq<Pair> {
    MergeOf(Intakes(rounds)).validPairs
  }

  function OnePassPairs(rounds: seq<seq<Frame>>): seq<Pair> {
    IntakeOf(AllFrames(rounds)).validPairs
  }

  lemma {:induction false} WellFormedConcat(a: seq<Frame>, b: seq<Frame>)
    ensures WellFormed(a + b) == WellFormed(a) + WellFormed(b)
    decreases |b|
  {
    if b == [] {
      assert a + b == a;
    } else {
      assert (a + b)[..|a + b| - 1] == a + b[..|b| - 1];
      WellFormedConcat(a, b[..|b| - 1]);
    }
  }

  lemma {:induction false} KeptConcat(start: seq<Pair>, a: seq<Pair>, b: seq<Pair>)
    ensures Kept(start, a + b) == Kept(Kept(start, a), b)
    decreases |b|
  {
    if b == [] {
      assert a + b == a;
    } else {
      assert (a + b)[..|a + b| - 1] == a + b[..|b| - 1];
      KeptConcat(start, a, b[..|b| - 1]);
    }
  }

  lemma OnePassNext(rounds: seq<seq<Frame>>)
    requires rounds != []
    ensures OnePassPairs(rounds) == Kept(OnePassPairs(rounds[..|rounds| - 1]), WellFormed(rounds[|rounds| - 1]))
  {
    var front, last := rounds[..|rounds| - 1], rounds[|rounds| - 1];
    IntakeKeeps(AllFrames(rounds));
    IntakeKeeps(AllFrames(front));
    WellFormedConcat(AllFrames(front), last);
    KeptConcat([], WellFormed(AllFrames(front)), WellFormed(last));
  }

  lemma MergeNext(rounds: seq<seq<Frame>>)
    requires rounds != []
    ensures MergedPairs(rounds) == Kept(MergedPairs(rounds[..|rounds| - 1]), Kept([], WellFormed(rounds[|rounds| - 1])))
  {
    var front, last := rounds[..|rounds| - 1], rounds[|rounds| - 1];
    assert Intakes(rounds)[..|rounds| - 1] == Intakes(front);
    IntakeKeeps(last);
    AddRoundKeeps(MergeOf(Intakes(front)), IntakeOf(last));
  }

  lemma AddRoundKeeps(t: Intake, round: Intake)
    ensures AddRound(t, round).validPairs == Kept(t.validPairs, round.validPairs)
  {
    KeepAllKeeps(Intake(t.eventsReceived + round.eventsReceived, t.validPairs, t.missingMint + round.missingMint,
                        t.missingSignature + round.missingSignature, t.duplicate + round.duplicate,
                        t.conflicting + round.conflicting), round.validPairs);
  }

  /** No round hides a pair that one pass over all events so far would have kept. */
  predicate RoundsHideNothing(rounds: seq<seq<Frame>>) {
    forall k :: 0 <= k < |rounds| ==> HidesNothing(OnePassPairs(rounds[..k]), WellFormed(rounds[k]))
  }

  lemma RoundsHideNothingFront(rounds: seq<seq<Frame>>)
    requires rounds != []
    ensures var front, n := rounds[..|rounds| - 1], |rounds| - 1;
            RoundsHideNothing(rounds) <==> RoundsHideNothing(front) && HidesNothing(OnePassPairs(front), WellFormed(rounds[n]))
  {
    var front := rounds[..|rounds| - 1];
    assert forall k :: 0 <= k < |front| ==> front[..k] == rounds[..k] && front[k] == rounds[k];
  }

  predicate SameAfter(rounds: seq<seq<Frame>>, k: nat)
    requires k <= |rounds|
  {
    MergedPairs(rounds[..k]) == OnePassPairs(rounds[..k])
  }

  predicate InStep(rounds: seq<seq<Frame>>) {
    forall k: nat :: k <= |rounds| ==> SameAfter(rounds, k)
  }

  lemma SameAfterFront(rounds: seq<seq<Frame>>, k: nat)
    requires k < |rounds|
    ensures SameAfter(rounds, k) <==> SameAfter(rounds[..|rounds| - 1], k)
  {
    assert rounds[..|rounds| - 1][..k] == rounds[..k];
  }

  lemma InStepFront(rounds: seq<seq<Frame>>)
    requires rounds != []
    ensures InStep(rounds) <==> InStep(rounds[..|rounds| - 1]) && SameAfter(rounds, |rounds|)
  {
    var front := rounds[..|rounds| - 1];
    if InStep(rounds) {
      forall k: nat | k <= |front| ensures SameAfter(front, k) {
        SameAfterFront(rounds, k);
      }
    }
    if InStep(front) {
      forall k: nat | k < |rounds| ensures SameAfter(rounds, k) {
        SameAfterFront(rounds, k);
      }
    }
  }

  /** Any number of rounds: after every round the merged pairs are those of one pass over all events
      so far, if and only if no round hides a pair. */
  lemma {:induction false} MergeOfRoundsExactly(rounds: seq<seq<Frame>>)
    ensures InStep(rounds) <==> RoundsHideNothing(rounds)
  {
    if rounds != [] {
      var front, last := rounds[..|rounds| - 1], rounds[|rounds| - 1];
      MergeOfRoundsExactly(front);
      InStepFront(rounds);
      RoundsHideNothingFront(rounds);
      assert rounds[..|rounds|] == rounds;
      if InStep(front) {
        assert SameAfter(front, |front|) && front[..|front|] == front;
        OnePassNext(rounds);
        MergeNext(rounds);
        MergeEqualsSinglePassExactly(OnePassPairs(front), WellFormed(last));
      }
    } else {
      forall k: nat | k <= |rounds| ensures SameAfter(rounds, k) {
        assert rounds[..k] == [];
      }
    }
  }

  /** What every round offers, in order: the pairs it keeps on its own. */
  function Offers(rounds: seq<seq<Frame>>): seq<Pair> {
    if rounds == [] then [] else Offers(rounds[..|rounds| - 1]) + IntakeOf(rounds[|rounds| - 1]).validPairs
  }

  lemma {:induction false} MergedAreKeptOffers(rounds: seq<seq<Frame>>)
    ensures MergedPairs(rounds) == Kept([], Offers(rounds))
  {
    if rounds != [] {
      var front, last := rounds[..|rounds| - 1], rounds[|rounds| - 1];
      MergedAreKeptOffers(front);
      MergeNext(rounds);
      IntakeKeeps(last);
      KeptConcat([], Offers(front), IntakeOf(last).validPairs);
    }
  }

  /** How many of the wanted pairs, in order, the offers have named so far. */
  function Matched(wanted: seq<Pair>, offers: seq<Pair>): (n: nat)
    ensures n <= |wanted|
    decreases |offers|
  {
    if offers == [] then 0
    else
      var n := Matched(wanted, offers[..|offers| - 1]);
      if n < |wanted| && wanted[n] == offers[|offers| - 1] then n + 1 else n
  }

  /** Every offer touches a pair that has been named by then. */
  predicate NothingNew(wanted: seq<Pair>, offers: seq<Pair>) {
    forall j :: 0 <= j < |offers| ==> Touched(wanted[..Matched(wanted, offers[..j + 1])], offers[j])
  }

  /** The offers name all wanted pairs in order, and whatever else they offer touches a pair already named. */
  predicate Follows(wanted: seq<Pair>, offers: seq<Pair>) {
    Matched(wanted, offers) == |wanted| && NothingNew(wanted, offers)
  }

  lemma NothingNewFront(wanted: seq<Pair>, offers: seq<Pair>)
    requires offers != []
    ensures var front, p := offers[..|offers| - 1], offers[|offers| - 1];
            NothingNew(wanted, offers) <==> NothingNew(wanted, front) && Touched(wanted[..Matched(wanted, offers)], p)
  {
    var front := offers[..|offers| - 1];
    forall j | 0 <= j < |front| ensures front[..j + 1] == offers[..j + 1] && front[j] == offers[j] {
    }
    assert offers[..|front| + 1] == offers;
  }

  /** Keeping the first come gives a wanted one-to-one list exactly when the offers follow it. */
  lemma KeptExactly(wanted: seq<Pair>, offers: seq<Pair>)
    requires OneToOne(wanted)
    ensures Kept([], offers) == wanted <==> Follows(wanted, offers)
  {
    if NothingNew(wanted, offers) {
      FollowedIsKept(wanted, offers);
    }
    if Kept([], offers) == wanted {
      KeptIsFollowed(wanted, offers);
    }
  }

  lemma {:induction false} FollowedIsKept(wanted: seq<Pair>, offers: seq<Pair>)
    requires OneToOne(wanted) && NothingNew(wanted, offers)
    ensures Kept([], offers) == wanted[..Matched(wanted, offers)]
    decreases |offers|
  {
    if offers != [] {
      var front, p := offers[..|offers| - 1], offers[|offers| - 1];
      NothingNewFront(wanted, offers);
      FollowedIsKept(wanted, front);
      FollowStep(wanted, Matched(wanted, front), p);
    }
  }

  lemma FollowStep(wanted: seq<Pair>, n: nat, p: Pair)
    requires OneToOne(wanted) && n <= |wanted|
    requires Touched(wanted[..if n < |wanted| && wanted[n] == p then n + 1 else n], p)
    ensures (if Touched(wanted[..n], p) then wanted[..n] else wanted[..n] + [p])
         == wanted[..if n < |wanted| && wanted[n] == p then n + 1 else n]
  {
    if n < |wanted| && wanted[n] == p {
      NextIsUntouched(wanted, n);
    }
  }

  lemma NextIsUntouched(wanted: seq<Pair>, n: nat)
    requires OneToOne(wanted) && n < |wanted|
    ensures !Touched(wanted[..n], wanted[n]) && wanted[..n + 1] == wanted[..n] + [wanted[n]]
  {
  }

  lemma {:induction false} KeptIsFollowed(wanted: seq<Pair>, offers: seq<Pair>)
    requires OneToOne(wanted) && Kept([], offers) <= wanted
    ensures NothingNew(wanted, offers) && Kept([], offers) == wanted[..Matched(wanted, offers)]
    decreases |offers|
  {
    if offers != [] {
      var front, p := offers[..|offers| - 1], offers[|offers| - 1];
      KeptIsFollowed(wanted, front);
      var n := Matched(wanted, front);
      if n < |wanted| {
        NextIsUntouched(wanted, n);
      }
      KeptGrows([], offers);
      NothingNewFront(wanted, offers);
    }
  }

  /** Any number of rounds, at the end: the merged pairs are those of one pass over all events, if
      and only if the rounds' own pairs follow the pairs of that pass. */
  lemma MergeAtEndExactly(rounds: seq<seq<Frame>>)
    ensures MergedPairs(rounds) == OnePassPairs(rounds) <==> Follows(OnePassPairs(rounds), Offers(rounds))
  {
    MergedAreKeptOffers(rounds);
    RoundIsSound(AllFrames(rounds));
    KeptExactly(OnePassPairs(rounds), Offers(rounds));
  }

  // ---- Recorded conflicts after a merge ----

  function ConflictPairs(t: Intake): set<Pair> {
    set c | c in t.conflicting :: c.pair
  }

  /** The pairs that some round on its own recorded as conflicts. */
  function Rejected(rounds: seq<seq<Frame>>): set<Pair> {
    if rounds == [] then {} else Rejected(rounds[..|rounds| - 1]) + ConflictPairs(IntakeOf(rounds[|rounds| - 1]))
  }

  predicate Contradicted(kept: seq<Pair>, p: Pair) {
    exists i :: 0 <= i < |kept| && Clashes(kept[i], p)
  }

  lemma KeepConflicts(t: Intake, p: Pair)
    ensures var r := Keep(t, p, CrossRoundConflict);
            ConflictPairs(r) == if Contradicted(t.validPairs, p) then ConflictPairs(t) + {p} else ConflictPairs(t)
  {
    var conflict := Conflict(CrossRoundConflict, p);
    assert forall c :: c in t.conflicting + [conflict] <==> c in t.conflicting || c == conflict;
    assert conflict.pair == p;
  }

  lemma StillContradicted(kept: seq<Pair>, longer: seq<Pair>, p: Pair)
    requires kept <= longer && Contradicted(kept, p)
    ensures Contradicted(longer, p)
  {
    var i :| 0 <= i < |kept| && Clashes(kept[i], p);
    assert longer[i] == kept[i];
  }

  /** A merged round adds only conflicts with what is kept. */
  lemma {:induction false} KeepAllConflicts(t: Intake, pairs: seq<Pair>)
    ensures var r := KeepAll(t, pairs);
            ConflictPairs(t) <= ConflictPairs(r)
            && forall p :: p in ConflictPairs(r) ==> p in ConflictPairs(t) || Contradicted(r.validPairs, p)
    decreases |pairs|
  {
    if pairs != [] {
      var front, last := pairs[..|pairs| - 1], pairs[|pairs| - 1];
      var m, r := KeepAll(t, front), KeepAll(t, pairs);
      KeepAllConflicts(t, front);
      KeepConflicts(m, last);
      KeepIsKept(m, last, CrossRoundConflict);
      forall p | p in ConflictPairs(r) ensures p in ConflictPairs(t) || Contradicted(r.validPairs, p) {
        if Contradicted(m.validPairs, p) {
          StillContradicted(m.validPairs, r.validPairs, p);
        }
      }
    }
  }

  lemma AddRoundConflicts(t: Intake, round: Intake)
    ensures var r := AddRound(t, round);
            && ConflictPairs(t) + ConflictPairs(round) <= ConflictPairs(r)
            && (forall p :: p in ConflictPairs(r) ==> p in ConflictPairs(t) + ConflictPairs(round) || Contradicted(r.validPairs, p))
            && t.validPairs <= r.validPairs
  {
    var begun := Intake(t.eventsReceived + round.eventsReceived, t.validPairs, t.missingMint + round.missingMint,
                        t.missingSignature + round.missingSignature, t.duplicate + round.duplicate, t.conflicting + round.conflicting);
    assert ConflictPairs(begun) == ConflictPairs(t) + ConflictPairs(round);
    KeepAllConflicts(begun, round.validPairs);
    KeepAllKeeps(begun, round.validPairs);
    KeptGrows(t.validPairs, round.validPairs);
  }

  lemma {:induction false} MergedConflicts(rounds: seq<seq<Frame>>)
    ensures var r := MergeOf(Intakes(rounds));
            Rejected(rounds) <= ConflictPairs(r)
            && forall p :: p in ConflictPairs(r) ==> p in Rejected(rounds) || Contradicted(r.validPairs, p)
  {
    if rounds != [] {
      var front, last := rounds[..|rounds| - 1], IntakeOf(rounds[|rounds| - 1]);
      assert Intakes(rounds)[..|rounds| - 1] == Intakes(front);
      MergedConflicts(front);
      var t, r := MergeOf(Intakes(front)), MergeOf(Intakes(rounds));
      AddRoundConflicts(t, last);
      forall p | p in ConflictPairs(r) ensures p in Rejected(rounds) || Contradicted(r.validPairs, p) {
        if Contradicted(t.validPairs, p) {
          StillContradicted(t.validPairs, r.validPairs, p);
        }
      }
    }
  }

  lemma {:induction false} KeptWhenUntouched(offers: seq<Pair>, p: Pair)
    ensures p in Kept([], offers) <==> exists j :: 0 <= j < |offers| && offers[j] == p && !Touched(Kept([], offers[..j]), p)
  {
    if offers != [] {
      var front, last := offers[..|offers| - 1], offers[|offers| - 1];
      KeptWhenUntouched(front, p);
      assert forall j :: 0 <= j < |front| ==> front[j] == offers[j] && front[..j] == offers[..j];
      if last == p && !Touched(Kept([], front), p) {
        assert offers[|front|] == p && offers[..|front|] == front;
      }
    }
  }

  /** No pair that was recorded as a conflict is used. */
  ghost predicate ConflictsUnused(rounds: seq<seq<Frame>>) {
    ConflictPairs(MergeOf(Intakes(rounds))) !! (set p | p in MergedPairs(rounds))
  }

  /** Within a round a recorded conflict is never used. After a merge that holds exactly when every
      pair that one round recorded as a conflict and another one offers is skipped, because what is
      merged by then touches it. */
  lemma ConflictsUnusedExactly(rounds: seq<seq<Frame>>)
    ensures ConflictsUnused(rounds)
            <==> forall j :: 0 <= j < |Offers(rounds)| && Offers(rounds)[j] in Rejected(rounds) ==>
                               Touched(Kept([], Offers(rounds)[..j]), Offers(rounds)[j])
  {
    var offers, merged := Offers(rounds), MergedPairs(rounds);
    MergedConflicts(rounds);
    MergedAreKeptOffers(rounds);
    KeptOneToOne(offers);
    if j :| 0 <= j < |offers| && offers[j] in Rejected(rounds) && !Touched(Kept([], offers[..j]), offers[j]) {
      KeptWhenUntouched(offers, offers[j]);
      assert offers[j] in merged;
    } else {
      forall p | p in ConflictPairs(MergeOf(Intakes(rounds))) ensures p !in merged {
        KeptWhenUntouched(offers, p);
        if Contradicted(merged, p) {
          ContradictedIsNotKept(merged, p);
        }
      }
    }
  }

  lemma ContradictedIsNotKept(kept: seq<Pair>, p: Pair)
    requires OneToOne(kept) && Contradicted(kept, p)
    ensures p !in kept
  {
    var i :| 0 <= i < |kept| && Clashes(kept[i], p);
    forall k | 0 <= k < |kept| ensures kept[k] != p {
      if k < i {
        assert !Touches(kept[k], kept[i]);
      } else if i < k {
        assert !Touches(kept[i], kept[k]);
      }
    }
  }

  /** One page keeps a pair that the next one records as a conflict. */
  lemma AUsedConflict(a: Pair, b: Pair)
    requires Plain(a) && Plain(b) && Clashes(b, a)
    ensures var rounds := [[FrameOf(a)], [FrameOf(b), FrameOf(a)]]; a in MergedPairs(rounds) && a in Rejected(rounds)
  {
    var first, second := [FrameOf(a)], [FrameOf(b), FrameOf(a)];
    var rounds := [first, second];
    OnePage(first, a);
    assert rounds[..1] == [first];
    MergeNext(rounds);
    KeptGrows([a], Kept([], WellFormed(second)));
    assert [a][0] == a;
    SecondIsRejected(b, a);
    assert Rejected(rounds) == Rejected([first]) + ConflictPairs(IntakeOf(second));
  }

  lemma SecondIsRejected(b: Pair, a: Pair)
    requires Plain(a) && Plain(b) && Clashes(b, a)
    ensures a in ConflictPairs(IntakeOf([FrameOf(b), FrameOf(a)]))
  {
    var page := [FrameOf(b), FrameOf(a)];
    assert page[..1] == [FrameOf(b)];
    FramesOf(b);
    IntakeKeeps([FrameOf(b)]);
    KeptOfOne([], b);
    AbsorbRejects(IntakeOf([FrameOf(b)]), a);
  }

  lemma AbsorbRejects(t: Intake, a: Pair)
    requires Plain(a) && Contradicted(t.validPairs, a)
    ensures a in ConflictPairs(Absorb(t, FrameOf(a)))
  {
    var conflict := Conflict(ConflictKindOf(t.validPairs, a), a);
    var r := Absorb(t, FrameOf(a));
    assert r.conflicting == t.conflicting + [conflict];
    assert conflict in r.conflicting && conflict.pair == a;
  }

  /** No pair kept by the later round contradicts a pair already merged. */
  predicate NoCrossRoundConflict(merged: seq<Pair>, round: seq<Pair>) {
    forall i, j :: 0 <= i < |merged| && 0 <= j < |round| ==> !Clashes(merged[i], round[j])
  }

  /** The merge reports no cross-round conflict, so the round hides nothing. */
  lemma {:induction false} NoConflictHidesNothing(merged: seq<Pair>, pairs: seq<Pair>)
    requires NoCrossRoundConflict(merged, Kept([], pairs))
    ensures HidesNothing(merged, pairs)
    decreases |pairs|
  {
    if pairs != [] {
      var front, p := pairs[..|pairs| - 1], pairs[|pairs| - 1];
      var own := Kept([], front);
      KeptExtends([], pairs, |front|);
      FrontHasNoConflict(merged, own, Kept([], pairs));
      NoConflictHidesNothing(merged, front);
      NothingHiddenMerges(merged, front);
      HidesNothingFront(merged, pairs);
      if Touched(own, p) {
        var i :| 0 <= i < |own| && Touches(own[i], p);
        KeptOneToOne(front);
        OfferIsKept(merged, own, own[i]);
        MemberTouches(Kept(merged, own), own[i], p);
      }
    }
  }

  lemma {:induction false} KeptOneToOne(pairs: seq<Pair>)
    ensures OneToOne(Kept([], pairs))
  {
    if pairs != [] {
      KeptOneToOne(pairs[..|pairs| - 1]);
    }
  }

  lemma MemberTouches(kept: seq<Pair>, q: Pair, p: Pair)
    requires q in kept && Touches(q, p)
    ensures Touched(kept, p)
  {
    var i :| 0 <= i < |kept| && kept[i] == q;
    assert Touches(kept[i], p);
  }

  /** What contradicts nothing merged is merged. */
  lemma OfferIsKept(merged: seq<Pair>, own: seq<Pair>, q: Pair)
    requires OneToOne(own) && NoCrossRoundConflict(merged, own) && q in own
    ensures q in Kept(merged, own)
  {
    var both := Kept(merged, own);
    KeptGrows(merged, own);
    var k :| 0 <= k < |both| && Touches(both[k], q);
    assert both[k] in both && both[k] == q by {
      var j :| 0 <= j < |own| && own[j] == q;
      if both[k] in merged {
        var m :| 0 <= m < |merged| && merged[m] == both[k];
        assert !Clashes(merged[m], own[j]);
      } else {
        var i :| 0 <= i < |own| && own[i] == both[k];
        assert i == j || !Touches(own[if i < j then i else j], own[if i < j then j else i]);
      }
    }
  }

  /** Reading the later round on its own first, then merging, keeps exactly the pairs that one
      uninterrupted pass would have kept, provided the merge reports no cross-round conflict. */
  lemma MergeEqualsSinglePass(merged: seq<Pair>, pairs: seq<Pair>)
    requires NoCrossRoundConflict(merged, Kept([], pairs))
    ensures Kept(merged, Kept([], pairs)) == Kept(merged, pairs)
  {
    NoConflictHidesNothing(merged, pairs);
    MergeEqualsSinglePassExactly(merged, pairs);
  }

  lemma FrontHasNoConflict(merged: seq<Pair>, own: seq<Pair>, all: seq<Pair>)
    requires own <= all && NoCrossRoundConflict(merged, all)
    ensures NoCrossRoundConflict(merged, own)
  {
    forall i, j | 0 <= i < |merged| && 0 <= j < |own| ensures !Clashes(merged[i], own[j]) {
      assert own[j] == all[j];
    }
  }

  /** The proviso is needed: a round whose first pair contradicts the merged one hides a second pair
      that a single pass would have kept. */
  lemma MergeLosesAPair(m: Pair, a: Pair, b: Pair)
    requires Clashes(m, a) && Touches(a, b) && !Touches(m, b)
    ensures b in Kept([m], [a, b]) && b !in Kept([m], Kept([], [a, b]))
  {
    ClashingPairIsSkipped(m, a, b);
    RoundHidesSecond(a, b);
    KeptOfOne([m], a);
    assert Touches([m][0], a);
  }

  lemma ClashingPairIsSkipped(m: Pair, a: Pair, b: Pair)
    requires Touches(m, a) && !Touches(m, b)
    ensures Kept([m], [a, b]) == [m, b]
  {
    assert [a, b] == [a] + [b];
    KeptOfOne([m], a);
    assert Touches([m][0], a);
    KeptSnoc([m], [a], b);
  }

  lemma RoundHidesSecond(a: Pair, b: Pair)
    requires Touches(a, b)
    ensures Kept([], [a, b]) == [a]
  {
    var none: seq<Pair> := [];
    assert [a, b] == [a] + [b] && none + [a] == [a];
    KeptOfOne(none, a);
    KeptSnoc(none, [a], b);
    assert Touches([a][0], b);
  }

  lemma KeptOfOne(start: seq<Pair>, p: Pair)
    ensures Kept(start, [p]) == if Touched(start, p) then start else start + [p]
  {
    assert [] + [p] == [p];
    KeptSnoc(start, [], p);
  }

  lemma MergeCanLoseAPair()
    ensures exists merged, pairs, p :: p in Kept(merged, pairs) && p !in Kept(merged, Kept([], pairs))
  {
    var m, a, b := Pair("m", "s"), Pair("m", "st"), Pair("mint", "st");
    assert |m.mint| != |b.mint| && |m.signature| != |b.signature|;
    MergeLosesAPair(m, a, b);
  }

  /** Two pages on which the merge of their intakes misses a pair that one pass over both keeps. */
  lemma MergeOfRoundsCanLoseAPair()
    ensures exists rounds, p :: p in OnePassPairs(rounds) && p !in MergedPairs(rounds)
  {
    var m, a, b := Pair("m", "s"), Pair("m", "st"), Pair("mint", "st");
    assert |m.mint| != |b.mint| && |m.signature| != |b.signature|;
    TwoPages(m, a, b);
    MergeLosesAPair(m, a, b);
  }

  lemma TwoPages(m: Pair, a: Pair, b: Pair)
    requires Plain(m) && Plain(a) && Plain(b)
    ensures var rounds := [[FrameOf(m)], [FrameOf(a), FrameOf(b)]];
            OnePassPairs(rounds) == Kept([m], [a, b]) && MergedPairs(rounds) == Kept([m], Kept([], [a, b]))
  {
    var first, second := [FrameOf(m)], [FrameOf(a), FrameOf(b)];
    OnePage(first, m);
    assert second == [FrameOf(a)] + [FrameOf(b)] && [a, b] == [a] + [b];
    WellFormedConcat([FrameOf(a)], [FrameOf(b)]);
    FramesOf(a);
    FramesOf(b);
    var rounds := [first, second];
    assert rounds[..1] == [first];
    OnePassNext(rounds);
    MergeNext(rounds);
  }

  lemma OnePage(page: seq<Frame>, m: Pair)
    requires Plain(m) && page == [FrameOf(m)]
    ensures OnePassPairs([page]) == [m] && MergedPairs([page]) == [m]
  {
    var none: seq<seq<Frame>> := [];
    assert [page][..0] == none && OnePassPairs(none) == [] && MergedPairs(none) == [];
    FramesOf(m);
    OnePassNext([page]);
    MergeNext([page]);
    KeptOfOne([], m);
  }

  predicate Plain(p: Pair) {
    p.mint != "" && p.signature != "" && Trim(p.mint) == p.mint && Trim(p.signature) == p.signature
  }

  function FrameOf(p: Pair): Frame {
    Token(Some(p.mint), Some(p.signature))
  }

  lemma FramesOf(p: Pair)
    requires Plain(p)
    ensures WellFormed([FrameOf(p)]) == [p]
  {
    assert [FrameOf(p)][..0] == [];
  }
}
