/** The tokens that the categorical rule selects, as the tokens that an initial cycle hands off. */
module SelectedCycle {
  import opened Common
  import opened TrackingHandoff
  import opened CombinedExecutor
  import CategoricalSelection

  /** What the handoff reads of a selected candidate besides its identity. */
  datatype Details = Details(id: string, originConfirmed: bool, freshEvidence: bool)

  datatype Choice = Choice(
    eligible: seq<CategoricalSelection.Token>, seed: string, batchSeq: int, digest: CategoricalSelection.SeededDigest,
    category: CategoricalSelection.CategoryDigest, details: (string, string) -> Details)
  {
    function AsSelection(t: CategoricalSelection.Token): Selection {
      var d := details(t.mint, t.market);
      Selection(d.id, t.mint, t.market, t.lifecycle, d.originConfirmed, d.freshEvidence)
    }

    function Graduated(): seq<CategoricalSelection.Token> {
      CategoricalSelection.GraduatedPart(eligible)
    }

    function Tokens(): seq<CategoricalSelection.Token> {
      CategoricalSelection.Select(eligible, seed, batchSeq, 2, digest, category)
    }

    function Selected(): seq<Selection> {
      Map(Tokens(), (t: CategoricalSelection.Token) => AsSelection(t))
    }

    predicate Fills(plan: Plan) {
      plan.handoff.mode == Initial && plan.handoff.selected == Selected()
    }
  }

  /** An initial cycle falls short exactly when the eligible candidates name fewer than two mints with
      a graduated candidate. */
  lemma ShortExactly(plan: Plan, choice: Choice)
    requires choice.Fills(plan)
    ensures Shortfall(plan) <==> |CategoricalSelection.UniqueMints(choice.Graduated())| < 2
  {
    CategoricalSelection.SelectionSize(choice.eligible, choice.seed, choice.batchSeq, choice.digest, choice.category);
  }

  /** Tracking knows none of the graduated candidates, and no two mints share a pool or an identifier. */
  ghost predicate NewToTracking(choice: Choice, t: Tracking) {
    && (forall u :: u in choice.Graduated() ==> NewToken(choice.AsSelection(u), t))
    && forall u, v :: u in choice.Graduated() && v in choice.Graduated() && u.mint != v.mint ==>
                        PoolOf(u.market) != PoolOf(v.market) && choice.AsSelection(u).id != choice.AsSelection(v).id
  }

  /** Each token that is handed off has the texts of the selected one, and what is known of that mint and market. */
  lemma SelectedInOrder(choice: Choice, i: nat)
    requires i < |choice.Tokens()|
    ensures |choice.Selected()| == |choice.Tokens()|
    ensures var c, t := choice.Selected()[i], choice.Tokens()[i];
            && c.mint == t.mint && c.market == t.market && c.lifecycle == t.lifecycle && c.id == choice.details(t.mint, t.market).id
            && (c.originConfirmed <==> choice.details(t.mint, t.market).originConfirmed)
            && (c.freshEvidence <==> choice.details(t.mint, t.market).freshEvidence)
  {
  }

  /** The selected tokens are at most two, of different mints, and each is a graduated candidate. */
  lemma SelectedAreGraduated(choice: Choice)
    ensures DistinctBy(choice.Tokens(), CategoricalSelection.MintOf)
    ensures forall t :: t in choice.Tokens() ==> exists u :: u in choice.Graduated() && choice.AsSelection(u) == choice.AsSelection(t)
  {
    CategoricalSelection.SelectionIsLawful(choice.eligible, choice.seed, choice.batchSeq, 2, choice.digest, choice.category);
    forall t | t in choice.Tokens() ensures exists u :: u in choice.Graduated() && choice.AsSelection(u) == choice.AsSelection(t) {
      var u :| u in choice.eligible && CategoricalSelection.Graduated(u) && u.mint == t.mint && u.market == t.market;
      assert u in choice.Graduated() && choice.AsSelection(u) == choice.AsSelection(t);
    }
  }

  /** The cycle has no slot and no link yet, and its selection batch is unused. */
  ghost predicate UntouchedCycle(h: HandoffPlan, t: Tracking) {
    && (forall key :: key in t.slots ==> key.cycle != h.cycle)
    && (forall k :: 0 <= k < |t.links| ==> t.links[k].batch != h.batch)
    && h.selectionBatch !in t.selectionBatches && h.selectionBatch !in t.batchLinks
  }

  lemma SelectedPairIsFresh(plan: Plan, choice: Choice, t: Tracking)
    requires choice.Fills(plan) && NewToTracking(choice, t) && UntouchedCycle(plan.handoff, t)
    requires |CategoricalSelection.UniqueMints(choice.Graduated())| >= 2
    ensures FreshPair(plan.handoff, t)
  {
    var tokens := choice.Tokens();
    CategoricalSelection.SelectionSize(choice.eligible, choice.seed, choice.batchSeq, choice.digest, choice.category);
    SelectedAreGraduated(choice);
    assert tokens[0] in tokens && tokens[1] in tokens;
    var u :| u in choice.Graduated() && choice.AsSelection(u) == choice.AsSelection(tokens[0]);
    var v :| v in choice.Graduated() && choice.AsSelection(v) == choice.AsSelection(tokens[1]);
    assert u.mint == tokens[0].mint && v.mint == tokens[1].mint;
  }

  lemma ShortCycleNeverCompletes(plan: Plan, db: Database, last: Option<Canonical>)
    requires Shortfall(plan)
    ensures CycleResult(plan, db, last) != Ok(Completed)
  {
  }

  /** From the selection to the end of the cycle: over tokens that tracking does not know, a faultless
      initial cycle over a new batch completes exactly when two mints have a graduated candidate,
      whichever of them the seeded rule selects. */
  lemma SelectedCycleCompletesExactly(plan: Plan, choice: Choice, db: Database)
    requires Faultless(plan) && NoStepFaults(plan.handoff) && choice.Fills(plan)
    requires NewToTracking(choice, db.tracking) && UntouchedCycle(plan.handoff, db.tracking)
    requires plan.handoff.batch !in db.batches && forall id :: id in db.work ==> id.batch != plan.handoff.batch
    requires WindowsTargeted(db.jobs, |db.tracking.queue|)
    ensures CycleResult(plan, db, None) == Ok(Completed) <==> |CategoricalSelection.UniqueMints(choice.Graduated())| >= 2
  {
    if |CategoricalSelection.UniqueMints(choice.Graduated())| >= 2 {
      SelectedPairIsFresh(plan, choice, db.tracking);
      FreshCycleCompletes(plan, db);
    } else {
      ShortExactly(plan, choice);
      ShortCycleNeverCompletes(plan, db, None);
    }
  }
}
