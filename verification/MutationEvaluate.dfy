/**
 The Core evaluators that judge an execution observation without trusting the
 executor (validExecutionObservation and evaluate*Mutation in init.ts and
 activation.ts). The two consistency predicates agree except for one clause on
 the path of a cleanup failure, which only Init has.
 */
module MutationEvaluate {
  import opened Foundations
  import opened MutationModel

  predicate AllIn(paths: seq<Path>, allowed: set<Path>) {
    forall path <- paths :: path in allowed
  }

  function AllowedEvidence(plan: Plan): set<Path> {
    ToSet(PreconditionPaths(plan)) + ToSet(plan.body.stagePreconditions)
  }

  predicate EffectList(plan: Plan, paths: seq<Path>) {
    Unique(paths) && AllIn(paths, ToSet(EffectPaths(plan)))
  }

  predicate EvidenceList(plan: Plan, paths: seq<Path>) {
    Unique(paths) && AllIn(paths, AllowedEvidence(plan))
  }

  /** Every list names known paths once, and the three progress lists are prefixes. */
  predicate WellFormedLists(plan: Plan, o: Observation) {
    && o.planId == plan.planId
    && PlanHash(plan.body) == plan.planId
    && EffectList(plan, o.prepared) && EffectList(plan, o.attempted) && EffectList(plan, o.applied)
    && EffectList(plan, o.recoveryAttempted) && EffectList(plan, o.restored)
    && EffectList(plan, o.unrecovered) && EffectList(plan, o.invalidated)
    && EffectList(plan, o.invalidationFailed)
    && EvidenceList(plan, o.retained) && EvidenceList(plan, o.cleanupResidue)
    && EvidenceList(plan, o.preconditionMismatches)
    && AllIn(o.invalidated, {plan.body.commitMarker})
    && AllIn(o.invalidationFailed, {plan.body.commitMarker})
    && (forall path <- o.invalidated :: path !in o.invalidationFailed)
    && o.attempted <= EffectPaths(plan)
    && o.applied <= o.attempted
    && o.prepared <= EffectPaths(plan)
    && (o.failure.Some? && o.failure.value.path.Some? ==>
          o.failure.value.path.value in AllowedEvidence(plan))
  }

  predicate NothingApplied(o: Observation) {
    o.attempted == [] && o.applied == [] && NothingRecovered(o)
  }

  predicate NothingRecovered(o: Observation) {
    && o.recoveryAttempted == [] && o.restored == [] && o.unrecovered == []
    && o.invalidated == [] && o.invalidationFailed == [] && o.retained == []
  }

  predicate FailedAt(o: Observation, stage: FailureStage) {
    o.failure.Some? && o.failure.value.stage == stage
  }

  predicate CommittedShape(plan: Plan, o: Observation) {
    o.committed ==>
      && o.prepared == EffectPaths(plan) && o.attempted == EffectPaths(plan)
      && o.applied == EffectPaths(plan)
      && NothingRecovered(o) && o.preconditionMismatches == []
      && (o.failure.Some? ==> o.failure.value.stage == Cleanup)
      && AllIn(o.cleanupResidue, ToSet(plan.body.stagePreconditions))
  }

  predicate RefusalShape(o: Observation) {
    (o.preconditionMismatches != [] || FailedAt(o, Precondition) || FailedAt(o, Prepare)) ==>
      NothingApplied(o)
  }

  /** Recovery visits every attempted effect, last first, and sorts each into exactly one list. */
  predicate RecoveryShape(plan: Plan, o: Observation) {
    (!o.committed && (FailedAt(o, Apply) || FailedAt(o, Recovery))) ==>
      && o.prepared == EffectPaths(plan)
      && o.recoveryAttempted == Reverse(o.attempted)
      && (forall path <- o.restored :: path !in o.unrecovered)
      && |ToSet(o.restored + o.unrecovered)| == |o.attempted|
      && (forall path <- o.attempted :: path in o.restored || path in o.unrecovered)
  }

  predicate RetentionShape(plan: Plan, o: Observation) {
    && ((o.unrecovered != [] || o.invalidationFailed != []) ==>
          o.retained == plan.body.stagePreconditions)
    && (o.unrecovered != [] ==>
          plan.body.commitMarker in o.invalidated || plan.body.commitMarker in o.invalidationFailed)
    && (o.unrecovered == [] ==>
          o.invalidated == [] && o.invalidationFailed == [] && o.retained == [])
  }

  predicate ValidActivationObservation(plan: Plan, o: Observation) {
    && WellFormedLists(plan, o)
    && CommittedShape(plan, o)
    && RefusalShape(o)
    && (FailedAt(o, Cleanup) ==> o.committed)
    && RecoveryShape(plan, o)
    && (FailedAt(o, Apply) ==> o.attempted != [])
    && RetentionShape(plan, o)
  }

  predicate ValidInitObservation(plan: Plan, o: Observation) {
    && ValidActivationObservation(plan, o)
    && (o.committed && FailedAt(o, Cleanup) && o.failure.value.path.Some? ==>
          o.failure.value.path.value in plan.body.stagePreconditions)
  }

  function EvaluateInit(plan: Plan, o: Observation): Outcome {
    if !ValidInitObservation(plan, o) then ObservationInvalid
    else if (o.preconditionMismatches != [] || FailedAt(o, Precondition)) && o.cleanupResidue == [] then
      OperationRefused
    else if o.unrecovered != [] || o.invalidationFailed != [] || FailedAt(o, Recovery) ||
            (!o.committed && o.cleanupResidue != []) then
      RecoveryIncomplete
    else if !o.committed && o.failure.Some? then ApplyFailedRecovered
    else if o.cleanupResidue != [] || FailedAt(o, Cleanup) then CleanupIncomplete
    else if o.committed then Applied
    else NoFinalState
  }

  function EvaluateActivation(plan: Plan, o: Observation): Outcome {
    if !ValidActivationObservation(plan, o) then ObservationInvalid
    else if (o.preconditionMismatches != [] || FailedAt(o, Precondition)) && o.cleanupResidue == [] then
      OperationRefused
    else if o.unrecovered != [] || o.invalidationFailed != [] || FailedAt(o, Recovery) then
      RecoveryIncomplete
    else if o.cleanupResidue != [] then CleanupIncomplete
    else if !o.committed && o.failure.Some? then ApplyFailedRecovered
    else if o.committed then Applied
    else NoFinalState
  }
}
