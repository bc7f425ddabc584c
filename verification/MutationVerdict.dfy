/**
 Core's verdict on a report and what it says about the tree that was left behind
 (evaluateInitMutation in packages/core/src/init.ts, evaluateActivationMutation in activation.ts).
 */
module MutationVerdict {
  import opened Foundations
  import opened MutationModel
  import opened MutationStore
  import opened MutationEvaluate
  import opened MutationPlan
  import opened MutationRun
  import opened MutationRecovery
  import opened MutationReports
  import opened MutationFinish
  import opened MutationLoss
  import opened ActivationScope

  predicate ValidObservation(plan: Plan, o: Observation) {
    if plan.body.operation.Init? then ValidInitObservation(plan, o) else ValidActivationObservation(plan, o)
  }

  function Evaluate(plan: Plan, o: Observation): Outcome {
    if plan.body.operation.Init? then EvaluateInit(plan, o) else EvaluateActivation(plan, o)
  }

  predicate HasRemoval(plan: Plan) {
    exists effect <- plan.body.effects :: effect.kind.Remove?
  }

  /** Activation removes the legacy directory together with the files in it. */
  predicate Migrates(plan: Plan) {
    plan.body.operation.Activation? && HasRemoval(plan)
  }

  function Migrated(plan: Plan, run: Run): Run {
    if Migrates(plan) then run.(before := run.before - {Managed(LEGACY_DIRECTORY)}) else run
  }

  /** The initial tree with the legacy directory created anew. */
  ghost predicate FolderRemade(before: Nodes, nodes: Nodes) {
    var folder := Managed(LEGACY_DIRECTORY);
    && folder in before && before[folder].Folder? && folder in nodes && nodes[folder].Folder?
    && forall place: Place :: place != folder ==> SameFileAt(before, nodes, place)
  }

  /** What Core's verdict on the report implies about the tree. */
  ghost predicate VerdictHolds(plan: Plan, run: Run, nodes: Nodes, orphan: Option<Place>, copy: Option<Identity>,
                               o: Observation, verdict: Outcome)
    requires run.items != []
  {
    match verdict
    case OperationRefused => nodes == run.before
    case Applied =>
      TreeCommitted(plan, Migrated(plan, run), nodes) && (Migrates(plan) ==> Managed(LEGACY_DIRECTORY) !in nodes)
    case CleanupIncomplete =>
      if o.committed then AllPlanned(run, nodes) else plan.body.operation.Activation? && AllInitial(run, nodes)
    case ApplyFailedRecovered =>
      TreeRestored(run.before, nodes, orphan) || (Migrates(plan) && FolderRemade(run.before, nodes))
    case RecoveryIncomplete =>
      if o.unrecovered == [] then plan.body.operation.Init? && AllInitial(run, nodes)
      else LossContained(plan, run, nodes, copy, o)
    case ObservationInvalid => false
    case NoFinalState => false
  }

  /**
   What the promise may make of the marker shows in the report: the marker is absent only in a run
   that lists unrecovered paths, and its new copy stands beside an incomplete tree only where its
   removal (in Activation first its restoration) is listed as failed.
   */
  predicate MarkerReported(plan: Plan, flags: Flags, o: Observation) {
    && (flags.voided ==> o.unrecovered != [])
    && (flags.stuck ==>
          plan.body.commitMarker in if plan.body.operation.Init? then o.invalidationFailed else o.unrecovered)
  }

  /** The report is consistent, its verdict is true of the tree, and no state on the way broke the promise. */
  ghost predicate Delivered(store: Store, plan: Plan, run: Run, o: Observation)
    requires run.items != []
    reads store`nodes, store`nextIdentity, store`orphan, store`flags, store`trace
  {
    && store.Valid() && ValidObservation(plan, o)
    && VerdictHolds(plan, run, store.nodes, store.orphan, store.flags.copy, o, Evaluate(plan, o))
    && TraceOk(run, store.trace, store.flags) && MarkerKnown(run, store.nodes, store.flags.copy)
    && MarkerReported(plan, store.flags, o)
  }

  lemma PrepareVerdict(plan: Plan, run: Run, nodes: Nodes, orphan: Option<Place>, copy: Option<Identity>,
                       prepared: seq<Path>, residue: seq<Path>, failure: Failure)
    requires WellFormedPlan(plan) && run.items != [] && prepared <= EffectPaths(plan)
    requires EvidenceList(plan, residue) && FailureNamed(plan, failure) && failure.stage == Prepare
    requires AllInitial(run, nodes) && (residue == [] ==> TreeRestored(run.before, nodes, orphan))
    ensures var o := Refusal(plan, prepared, [], residue, failure);
      ValidObservation(plan, o) && VerdictHolds(plan, run, nodes, orphan, copy, o, Evaluate(plan, o))
    ensures residue == [] ==> Evaluate(plan, Refusal(plan, prepared, [], residue, failure)) == ApplyFailedRecovered
  {
    NoPaths(plan);
    RefusalIsValid(plan, prepared, [], residue, failure);
  }

  lemma StaleVerdict(plan: Plan, run: Run, nodes: Nodes, orphan: Option<Place>, copy: Option<Identity>,
                     prepared: seq<Path>, mismatches: seq<Path>, residue: seq<Path>, failure: Failure)
    requires WellFormedPlan(plan) && run.items != [] && prepared <= EffectPaths(plan)
    requires EvidenceList(plan, mismatches) && EvidenceList(plan, residue)
    requires FailureNamed(plan, failure) && failure.stage == Precondition
    requires AllInitial(run, nodes) && (residue == [] ==> nodes == run.before)
    ensures var o := Refusal(plan, prepared, mismatches, residue, failure);
      ValidObservation(plan, o) && VerdictHolds(plan, run, nodes, orphan, copy, o, Evaluate(plan, o))
  {
    RefusalIsValid(plan, prepared, mismatches, residue, failure);
  }

  lemma CommitVerdict(plan: Plan, run: Run, nodes: Nodes, orphan: Option<Place>, copy: Option<Identity>, residue: seq<Path>)
    requires WellFormedPlan(plan) && run.items != [] && Distinct(residue)
    requires forall path <- residue :: path in plan.body.stagePreconditions
    requires AllPlanned(run, nodes)
    requires residue == [] ==>
      TreeCommitted(plan, Migrated(plan, run), nodes) && (Migrates(plan) ==> Managed(LEGACY_DIRECTORY) !in nodes)
    ensures var o := Commit(plan, residue);
      ValidObservation(plan, o) && VerdictHolds(plan, run, nodes, orphan, copy, o, Evaluate(plan, o))
    ensures residue == [] ==> Evaluate(plan, Commit(plan, residue)) == Applied
  {
    CommitIsValid(plan, residue);
  }

  /** With residue, Init reports a recovery failure and Activation keeps the apply failure. */
  lemma RecoveredVerdict(plan: Plan, run: Run, nodes: Nodes, orphan: Option<Place>, copy: Option<Identity>, o: Observation)
    requires run.items != [] && ValidObservation(plan, o)
    requires !o.committed && o.preconditionMismatches == [] && o.unrecovered == [] && o.invalidationFailed == []
    requires FailedAt(o, if o.cleanupResidue == [] || plan.body.operation.Activation? then Apply else Recovery)
    requires AllInitial(run, nodes)
    requires o.cleanupResidue == [] ==>
      TreeRestored(run.before, nodes, orphan) || (Migrates(plan) && FolderRemade(run.before, nodes))
    ensures VerdictHolds(plan, run, nodes, orphan, copy, o, Evaluate(plan, o))
    ensures o.cleanupResidue == [] ==> Evaluate(plan, o) == ApplyFailedRecovered
  {
    hide AllInitial, TreeRestored, FolderRemade, TreeCommitted, LossContained;
  }

  lemma RecoveryVerdict(plan: Plan, run: Run, nodes: Nodes, orphan: Option<Place>, copy: Option<Identity>,
                        attempted: seq<Path>, applied: seq<Path>, r: RecoveryState, residue: seq<Path>, failure: Failure)
    requires run.items != [] && RecoveryReport(plan, attempted, applied, r) && r.unrecovered == []
    requires LossHandled(plan, r, []) && EvidenceList(plan, residue) && FailureNamed(plan, failure)
    requires failure.stage == if residue == [] || plan.body.operation.Activation? then Apply else Recovery
    requires AllInitial(run, nodes)
    requires residue == [] ==>
      TreeRestored(run.before, nodes, orphan) || (Migrates(plan) && FolderRemade(run.before, nodes))
    ensures var o := Recovered(plan, attempted, applied, r, [], residue, failure);
      ValidObservation(plan, o) && VerdictHolds(plan, run, nodes, orphan, copy, o, Evaluate(plan, o))
    ensures residue == [] ==>
      Evaluate(plan, Recovered(plan, attempted, applied, r, [], residue, failure)) == ApplyFailedRecovered
  {
    hide Evaluate, VerdictHolds, AllInitial, TreeRestored, FolderRemade;
    NoPaths(plan);
    var o := Recovered(plan, attempted, applied, r, [], residue, failure);
    RecoveredIsValid(plan, attempted, applied, r, [], residue, failure);
    RecoveredVerdict(plan, run, nodes, orphan, copy, o);
  }

  lemma LossVerdict(plan: Plan, run: Run, nodes: Nodes, orphan: Option<Place>, copy: Option<Identity>, o: Observation)
    requires run.items != [] && ValidObservation(plan, o)
    requires o.preconditionMismatches == [] && o.unrecovered != [] && FailedAt(o, Recovery)
    requires LossContained(plan, run, nodes, copy, o)
    ensures VerdictHolds(plan, run, nodes, orphan, copy, o, Evaluate(plan, o))
  {
  }

  /** A run that ends before it touches anything. */
  lemma RefusedAtOnce(plan: Plan, mismatches: seq<Path>, failure: Failure)
    requires WellFormedPlan(plan) && EvidenceList(plan, mismatches) && FailureNamed(plan, failure)
    requires failure.stage == Precondition
    ensures var o := Refusal(plan, [], mismatches, [], failure);
      ValidObservation(plan, o) && Evaluate(plan, o) == OperationRefused
  {
    NoPaths(plan);
    RefusalIsValid(plan, [], mismatches, [], failure);
  }
}
