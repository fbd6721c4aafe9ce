/** The shortage label of a campaign that ends without capacity: a first classifier, then a chain
    of overrides that partly repeats it. */
module ShortageVerdict {
  import opened Common

  datatype Shortage =
    | TrueMarketSupplyShortage
    | SourceVisibilityShortage
    | SourceAvailabilityFailure
    | BudgetExhaustion
    | DurationExhaustion
    | StaleEvidenceShortage
    | DiscoveryArchitectureFalseShortage
    | TrackingStateCapacityBlocked

  datatype StopReason =
    | NotStarted
    | AllReachableCandidatesEvaluated
    | NoAdditionalUniqueCandidates
    | OperationBudgetExhausted
    | CampaignDurationExhausted
    | EligibleCapacityMet

  /** What the campaign knows when its loop has stopped. */
  datatype Facts = Facts(
    stop: StopReason,
    requiredCapacity: nat,
    eligible: nat,
    evaluated: nat,
    unexplored: nat,
    rounds: nat,
    batchSize: nat,
    operationsRemaining: nat,
    durationRemaining: Option<int>,
    providerFailures: nat,
    channelsUnavailable: nat,
    sourceUnavailable: nat,
    staleOrRateLimited: nat,
    malformedOrPartial: nat,
    trackingBlocked: bool)
  {
    predicate AllChannelsExhausted() {
      unexplored == 0 && stop in {AllReachableCandidatesEvaluated, NoAdditionalUniqueCandidates}
    }

    /** The loop of a run that ends without capacity can stop for these four reasons only. */
    predicate StoppedShort() {
      && eligible < requiredCapacity
      && stop in {AllReachableCandidatesEvaluated, NoAdditionalUniqueCandidates, OperationBudgetExhausted, CampaignDurationExhausted}
    }

    predicate EvidenceFailed() {
      sourceUnavailable > 0 || staleOrRateLimited > 0 || malformedOrPartial > 0 || (providerFailures > 0 && channelsUnavailable > 0)
    }

    predicate TimeLeft() {
      durationRemaining.None? || durationRemaining.value > 0
    }
  }

  function ClassifyShortage(f: Facts): Shortage {
    if f.sourceUnavailable > 0 then SourceAvailabilityFailure
    else if f.staleOrRateLimited > 0 then StaleEvidenceShortage
    else if f.malformedOrPartial > 0 then SourceVisibilityShortage
    else if f.providerFailures > 0 && (f.channelsUnavailable > 0 || f.evaluated == 0) then SourceAvailabilityFailure
    else if f.durationRemaining.Some? && f.durationRemaining.value <= 0 then DurationExhaustion
    else if f.operationsRemaining <= 0 then BudgetExhaustion
    else if f.unexplored > 0 && f.operationsRemaining > 0 && f.TimeLeft() then DiscoveryArchitectureFalseShortage
    else if f.eligible == 0 && f.evaluated == 0 && f.AllChannelsExhausted() then SourceVisibilityShortage
    else if f.AllChannelsExhausted() && f.unexplored == 0 then TrueMarketSupplyShortage
    else if f.rounds <= 1 && f.evaluated <= f.batchSize && f.operationsRemaining > 0 then DiscoveryArchitectureFalseShortage
    else TrueMarketSupplyShortage
  }

  function FinalShortage(f: Facts): Shortage {
    var shortage := ClassifyShortage(f);
    if f.sourceUnavailable > 0 then SourceAvailabilityFailure
    else if f.staleOrRateLimited > 0 then StaleEvidenceShortage
    else if f.malformedOrPartial > 0 then SourceVisibilityShortage
    else if f.providerFailures > 0 && f.channelsUnavailable > 0 then SourceAvailabilityFailure
    else if f.stop == OperationBudgetExhausted then BudgetExhaustion
    else if f.stop == CampaignDurationExhausted then DurationExhaustion
    else if f.trackingBlocked then TrackingStateCapacityBlocked
    else if f.AllChannelsExhausted() && f.eligible < f.requiredCapacity then
      if f.evaluated == 0 then SourceVisibilityShortage else TrueMarketSupplyShortage
    else shortage
  }

  /** Honest exhaustion, both directions: the market is blamed exactly when the walk itself ended
      it, nothing was left unexplored, something was evaluated, every piece of evidence arrived,
      and no token was held back by tracking. */
  lemma MarketIsBlamedExactlyWhen(f: Facts)
    requires f.StoppedShort()
    ensures FinalShortage(f) == TrueMarketSupplyShortage
            <==> && f.stop in {AllReachableCandidatesEvaluated, NoAdditionalUniqueCandidates}
                 && f.unexplored == 0 && f.evaluated > 0 && !f.EvidenceFailed() && !f.trackingBlocked
  {
  }

  /** With sound evidence, the budget is blamed exactly when it stopped the loop, or when the walk
      ended with tokens unexplored and no operation left. */
  lemma BudgetIsBlamedExactlyWhen(f: Facts)
    requires f.StoppedShort() && !f.EvidenceFailed()
    ensures FinalShortage(f) == BudgetExhaustion
            <==> || f.stop == OperationBudgetExhausted
                 || (&& f.stop in {AllReachableCandidatesEvaluated, NoAdditionalUniqueCandidates}
                     && f.unexplored > 0 && f.operationsRemaining == 0 && f.TimeLeft()
                     && !(f.providerFailures > 0 && f.evaluated == 0) && !f.trackingBlocked)
  {
  }

  /** The architecture is blamed exactly when lawful work, budget and time were all left over. */
  lemma ArchitectureIsBlamedExactlyWhen(f: Facts)
    requires f.StoppedShort()
    ensures FinalShortage(f) == DiscoveryArchitectureFalseShortage
            <==> && f.stop in {AllReachableCandidatesEvaluated, NoAdditionalUniqueCandidates}
                 && f.unexplored > 0 && f.operationsRemaining > 0 && f.TimeLeft()
                 && !f.EvidenceFailed() && !(f.providerFailures > 0 && f.evaluated == 0) && !f.trackingBlocked
  {
  }

  /** The overrides matter: a walk that finished with its last operation is a budget shortage to
      the first classifier and a market shortage in the final verdict. */
  lemma ClassifiersDisagree()
    ensures exists f: Facts ::
              f.StoppedShort() && ClassifyShortage(f) == BudgetExhaustion && FinalShortage(f) == TrueMarketSupplyShortage
  {
    var f := Facts(AllReachableCandidatesEvaluated, 2, 1, 6, 0, 1, 6, 0, None, 0, 0, 0, 0, 0, false);
    assert f.StoppedShort() && ClassifyShortage(f) == BudgetExhaustion && FinalShortage(f) == TrueMarketSupplyShortage;
  }

  /** Providers failed before anything was evaluated. */
  predicate NothingAnswered(f: Facts) {
    f.providerFailures > 0 && f.evaluated == 0
  }

  predicate WalkEnded(f: Facts) {
    f.stop in {AllReachableCandidatesEvaluated, NoAdditionalUniqueCandidates}
  }

  /** When the first classifier and the final verdict give the same label: failed evidence is named
      by both; an exhausted budget or deadline must also show in what is left; and of a walk that
      ended, tokens unexplored, or operations and time left over, must agree with its ending. */
  predicate OverridesAgree(f: Facts) {
    || f.EvidenceFailed()
    || (f.stop == OperationBudgetExhausted && f.TimeLeft() && f.operationsRemaining == 0 && !NothingAnswered(f))
    || (f.stop == CampaignDurationExhausted && !f.TimeLeft() && !NothingAnswered(f))
    || (&& WalkEnded(f) && !f.trackingBlocked
        && (|| f.unexplored > 0
            || (f.TimeLeft() && f.operationsRemaining > 0 && !NothingAnswered(f) && (f.evaluated == 0 ==> f.eligible == 0))))
  }

  lemma ClassifiersAgreeExactly(f: Facts)
    requires f.StoppedShort()
    ensures ClassifyShortage(f) == FinalShortage(f) <==> OverridesAgree(f)
  {
  }

  /** What the first classifier blames once no evidence has failed, the first that applies: the deadline, the
      operations, the architecture for tokens it left unexplored or for a single small round, the sources
      for an exhausted walk that evaluated nothing, and the market. */
  lemma ClassifierExactly(f: Facts)
    requires f.sourceUnavailable == 0 && f.staleOrRateLimited == 0 && f.malformedOrPartial == 0
    requires f.providerFailures == 0 || (f.channelsUnavailable == 0 && f.evaluated > 0)
    ensures var late, spent := f.durationRemaining.Some? && f.durationRemaining.value <= 0, f.operationsRemaining == 0;
            var walked := f.stop == AllReachableCandidatesEvaluated || f.stop == NoAdditionalUniqueCandidates;
            var r, small := ClassifyShortage(f), f.rounds <= 1 && f.evaluated <= f.batchSize;
            && (r == DurationExhaustion <==> late)
            && (r == BudgetExhaustion <==> !late && spent)
            && (r == DiscoveryArchitectureFalseShortage <==> !late && !spent && (f.unexplored > 0 || (!walked && small)))
            && (r == SourceVisibilityShortage <==> !late && !spent && f.unexplored == 0 && walked && f.eligible == 0 && f.evaluated == 0)
            && (r == TrueMarketSupplyShortage
                <==> !late && !spent && f.unexplored == 0 && (if walked then f.eligible > 0 || f.evaluated > 0 else !small))
  {
  }

  /** Once the walk itself ended with nothing unexplored, time and budget left over no longer
      influence the verdict. */
  lemma ExhaustedWalkIgnoresLeftovers(f: Facts, operations: nat, duration: Option<int>)
    requires f.StoppedShort() && f.AllChannelsExhausted()
    ensures FinalShortage(f) == FinalShortage(f.(operationsRemaining := operations, durationRemaining := duration))
  {
  }
}
