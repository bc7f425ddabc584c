/**
 Ending a run before anything was applied: a stale tree, a failed preparation or an
 interruption (packages/cli/src/init-mutation.ts:357-378, 432-511,
 packages/cli/src/activation-mutation.ts:248-276, 300-438).
 */
module MutationStop {
  import opened Foundations
  import opened MutationModel
  import opened MutationStore
  import opened MutationEvaluate
  import opened MutationPlan
  import opened MutationRun
  import opened MutationSteps
  import opened MutationCleanup
  import opened MutationRecovery
  import opened MutationPhases
  import opened MutationReports
  import opened MutationFinish
  import opened MutationPrepare
  import opened MutationCurrent
  import opened MutationVerdict

  /** What Init calls a failed cleanup of a recovery, Activation calls a failed cleanup. */
  function ResidueCode(plan: Plan): FailureCode {
    if plan.body.operation.Init? then RecoveryCleanupFailed else CleanupFailed
  }

  method StopPreparing(store: Store, plan: Plan, made: PreparedRun, ghost run: Run, ghost copies: seq<Identity>)
    returns (o: Observation)
    requires Halted(store, plan, run, copies, made)
    modifies store`nodes, store`trace, store`flags
    ensures Delivered(store, plan, run, o)
  {
    hide Planted;
    var residue := AbandonPrepared(store, plan, made, |made.p.prepared|, run, copies);
    var code := if residue == [] then PreparationFailed else ResidueCode(plan);
    var failure := Failure(Prepare, code, LastPath(made.p.prepared));
    LastPreparedNamed(plan, made.p.prepared, Prepare, code);
    o := Refusal(plan, made.p.prepared, [], residue, failure);
    PrepareVerdict(plan, run, store.nodes, store.orphan, store.flags.copy, made.p.prepared, residue, failure);
  }

  /** A destination was not what the plan expects: nothing is applied. */
  method StopStale(store: Store, plan: Plan, made: PreparedRun, mismatches: seq<Path>, ghost k: nat,
                   ghost run: Run, ghost copies: seq<Identity>)
    returns (o: Observation)
    requires |copies| == |run.items| && k <= |run.items| && made.p.prepared <= EffectPaths(plan)
    requires Tracking(store, run, copies, Progress(|run.items|, k, Ready, Idle))
    requires Holdings(plan, run, store.nodes, made.created, made.p.stages, store.orphan) && store.orphan == None
    requires mismatches != [] && EvidenceList(plan, mismatches) && MarkerUntouched(store.flags)
    modifies store`nodes, store`trace, store`flags
    ensures Delivered(store, plan, run, o)
  {
    hide Planted;
    var residue := AbandonPrepared(store, plan, made, k, run, copies);
    var failure := Failure(Precondition, StalePlan, Some(mismatches[0]));
    FirstNamed(plan, mismatches, Precondition, StalePlan);
    o := Refusal(plan, made.p.prepared, mismatches, residue, failure);
    StaleVerdict(plan, run, store.nodes, store.orphan, store.flags.copy, made.p.prepared, mismatches, residue, failure);
  }

  /** The run has everything it made, and can remove it again. */
  ghost predicate CanRemove(run: Run, nodes: Nodes, made: PreparedRun) {
    Supplied(run, nodes, made) && Planted(run.before) && ParentFirst(OwnedPaths(made.created))
  }

  lemma CanRemoveSupplied(run: Run, nodes: Nodes, made: PreparedRun)
    requires CanRemove(run, nodes, made)
    ensures Supplied(run, nodes, made)
  {
  }

  lemma ReadyIsClearable(store: Store, plan: Plan, run: Run, copies: seq<Identity>, made: PreparedRun)
    requires ReadyToApply(store, plan, run, copies, made) && CanRemove(run, store.nodes, made)
    ensures Clearable(run, store.nodes, made.p.stages, made.created, store.orphan)
  {
    hide Stocked, Planted, ParentFirst, Clearable, Holds, TraceOk, Confined, AllInitial;
    SettleInitial(run, store.nodes, copies, Progress(|run.items|, |run.items|, Ready, Idle), store.flags);
    StockedIsClearable(plan, run, store.nodes, made);
  }

  /** The same once copies may have been laid out for restoring. */
  ghost predicate CanStillRemove(run: Run, nodes: Nodes, made: PreparedRun, orphan: Option<Place>) {
    Stocked(run, nodes, made) && Planted(run.before) && ParentFirst(OwnedPaths(made.created)) && orphan == None
  }

  lemma CanRemoveLater(run: Run, a: Nodes, b: Nodes, made: PreparedRun, orphan: Option<Place>)
    requires CanStillRemove(run, a, made, orphan) && FoldersKept(a, b)
    ensures CanStillRemove(run, b, made, orphan)
  {
    hide Stocked, FoldersKept, Planted, ParentFirst;
    StockedStays(run, a, b, made);
  }

  lemma RestoredIsClearable(store: Store, plan: Plan, run: Run, copies: seq<Identity>, view: seq<Side>, made: PreparedRun)
    requires Underway(store, plan, run, copies, view, made) && Untaken(view)
    requires CanStillRemove(run, store.nodes, made, store.orphan)
    ensures Clearable(run, store.nodes, made.p.stages, made.created, store.orphan)
  {
    hide Stocked, Planted, ParentFirst, Clearable, Holds, TraceOk, Confined, AllInitial;
    SettleInitial(run, store.nodes, copies, view, store.flags);
    assert plan.body.stagePreconditions[..|made.p.stages|] == plan.body.stagePreconditions;
    StockedIsClearable(plan, run, store.nodes, made);
  }

  /** Applying takes nothing away that undoing or finishing needs. */
  lemma AppliedCanBeUndone(plan: Plan, run: Run, a: Nodes, b: Nodes, made: PreparedRun)
    requires Fits(plan, run) && OwnedPaths(made.p.stages) == plan.body.stagePreconditions
    requires CanRemove(run, a, made) && Housing(run, a) && FoldersKept(a, b) && NoNewRestore(a, b)
    ensures CanStillRemove(run, b, made, None) && Restorable(run, b, |run.items|) && OwnStages(b, made.p.stages)
  {
    hide Stocked, FoldersKept, NoNewRestore, Housing, Restorable, OwnStages, Planted, ParentFirst, WellFormedPlan,
      WellLaidOut, ExpectationsHold, ItemsMatch;
    SuppliedStays(run, a, b, made);
    HousingKept(run, a, b);
    SuppliedIsRestorable(plan, run, b, made);
    StockedStages(plan, run, b, made);
  }

  method StopInterrupted(store: Store, plan: Plan, made: PreparedRun, ghost run: Run, ghost copies: seq<Identity>)
    returns (o: Observation)
    requires ReadyToApply(store, plan, run, copies, made)
    modifies store`nodes, store`trace, store`flags
    ensures Delivered(store, plan, run, o)
    ensures store.calm && CanRemove(run, old(store.nodes), made) ==> Evaluate(plan, o) == ApplyFailedRecovered
  {
    hide CanRemove, Planted;
    if CanRemove(run, store.nodes, made) {
      ReadyIsClearable(store, plan, run, copies, made);
    }
    var residue := AbandonPrepared(store, plan, made, |run.items|, run, copies);
    var code := if residue == [] then Interrupted else ResidueCode(plan);
    var failure := Failure(Prepare, code, FirstPath(residue));
    FirstNamed(plan, residue, Prepare, code);
    o := Refusal(plan, made.p.prepared, [], residue, failure);
    PrepareVerdict(plan, run, store.nodes, store.orphan, store.flags.copy, made.p.prepared, residue, failure);
  }

  /** The second look: any difference or a pending interruption ends the run. */
  method LookAgain(store: Store, plan: Plan, scope: seq<Path>, detailed: bool, listed: set<Path>,
                   stillEmpty: PathObservation -> bool, made: PreparedRun, ghost run: Run, ghost copies: seq<Identity>)
    returns (stop: Option<Observation>)
    requires ReadyToApply(store, plan, run, copies, made)
    modifies store`nodes, store`trace, store`flags, store`interrupted
    ensures stop.None? ==> ReadyToApply(store, plan, run, copies, made)
    ensures stop.Some? ==> Delivered(store, plan, run, stop.value)
    ensures stop.None? ==> store.nodes == old(store.nodes) && !store.interrupted
    ensures store.calm && CanRemove(run, old(store.nodes), made) &&
            SecondLookFits(plan, store.looks, old(store.nodes), scope, detailed, listed, stillEmpty, made.created) ==>
      if store.interrupted then stop.Some? && Evaluate(plan, stop.value) == ApplyFailedRecovered else stop.None?
  {
    hide CanRemove, SecondLookFits, Delivered, Planted;
    if CanRemove(run, store.nodes, made) {
      CanRemoveSupplied(run, store.nodes, made);
    }
    stop := None;
    var mismatches := FindPreparedMismatches(store, plan, scope, detailed, listed, stillEmpty, made, run, copies);
    if mismatches != [] {
      var o := StopStale(store, plan, made, mismatches, |run.items|, run, copies);
      stop := Some(o);
    } else {
      var abort := store.ShouldAbort();
      if abort {
        var o := StopInterrupted(store, plan, made, run, copies);
        stop := Some(o);
      }
    }
  }

  lemma RefusalDelivered(store: Store, plan: Plan, run: Run, mismatches: seq<Path>, failure: Failure)
    requires WellFormedPlan(plan) && EvidenceList(plan, mismatches) && FailureNamed(plan, failure)
    requires failure.stage == Precondition && run.items != [] && store.trace == [] && store.nodes == run.before
    requires MarkerUntouched(store.flags) && store.Valid()
    ensures var o := Refusal(plan, [], mismatches, [], failure);
      Delivered(store, plan, run, o) && Evaluate(plan, o) == OperationRefused
  {
    RefusedAtOnce(plan, mismatches, failure);
  }

  /** The target is not the planned one, or a payload does not match the plan. */
  method RefuseUnchecked(store: Store, plan: Plan, observedRoot: Option<Identity>, contents: Contents, ghost masked: Mode)
    returns (o: Observation)
    requires WellFormedPlan(plan) && store.trace == [] && MarkerUntouched(store.flags) && store.Valid()
    requires observedRoot != Some(plan.body.rootIdentity) || contents.Invalid?
    requires contents.Contents? ==> |contents.list| == |plan.body.effects|
    requires contents.Invalid? ==> exists i :: 0 <= i < |plan.body.effects| && plan.body.effects[i].path == contents.path
    ensures ValidObservation(plan, o) && Evaluate(plan, o) == OperationRefused
    ensures contents.Contents? ==> Delivered(store, plan, RunFor(plan, contents.list, masked, store.nodes), o)
  {
    hide Planted;
    NoPaths(plan);
    var failure := Failure(Precondition, StalePlan, None);
    if observedRoot == Some(plan.body.rootIdentity) {
      InvalidIsEvidence(plan, contents.path);
      failure := Failure(Precondition, PayloadInvalid, Some(contents.path));
    }
    o := Refusal(plan, [], [], [], failure);
    RefusedAtOnce(plan, [], failure);
    if contents.Contents? {
      RefusalDelivered(store, plan, RunFor(plan, contents.list, masked, store.nodes), [], failure);
    }
  }

  lemma CheckedPlanFits(plan: Plan, contents: seq<Content>, masked: Mode, observations: seq<PathObservation>,
                        stages: seq<StageObservation>, run: Run)
    requires WellFormedPlan(plan) && Rooted(run.before) && |contents| == |plan.body.effects|
    requires run.items == ItemsOf(plan, contents, masked)
    requires FindMismatches(plan, observations, stages) == []
    requires forall entry <- observations :: Truthful(run.before, entry)
    requires forall entry <- stages :: entry.kind == Missing ==> Stage(entry.path) !in run.before
    ensures Fits(plan, run)
  {
    NoMismatch(plan, observations, stages, run.before);
    FittingPlanIsLaidOut(plan, run, contents, masked);
  }

  /** The first look: without a mismatch the tree is the one the plan was made for. */
  method CheckPlan(store: Store, plan: Plan, scope: seq<Path>, detailed: bool, listed: set<Path>,
                   ghost contents: seq<Content>, ghost masked: Mode, ghost run: Run)
    returns (stop: Option<Observation>)
    requires store.Valid() && store.trace == [] && WellFormedPlan(plan) && |contents| == |plan.body.effects|
    requires MarkerUntouched(store.flags)
    requires run == Run(ItemsOf(plan, contents, masked), store.nodes)
    ensures stop.None? ==> Fits(plan, run)
    ensures stop.Some? ==> Delivered(store, plan, run, stop.value) && Evaluate(plan, stop.value) == OperationRefused
    ensures store.calm && Distinct(scope) ==>
      (stop.None? <==> Current(plan, store.looks, store.nodes, scope, detailed, listed))
  {
    hide Current, FindMismatches, Fits, Delivered, Seen, Planted;
    var entries := Capture(store, scope, detailed, listed);
    RecordedTruthful(entries, detailed, store.nodes);
    var stages := CaptureStages(store, plan.body.stagePreconditions);
    var mismatches := FindMismatches(plan, Recorded(entries, detailed), stages);
    if store.calm && Distinct(scope) {
      FirstLook(plan, store.looks, store.nodes, scope, detailed, listed, stages);
    }
    if mismatches == [] {
      stop := None;
      CheckedPlanFits(plan, contents, masked, Recorded(entries, detailed), stages, run);
    } else {
      var code := if OnlyStages(plan, mismatches) then StageCollision else StalePlan;
      var failure := Failure(Precondition, code, Some(mismatches[0]));
      MismatchesAreEvidence(plan, Recorded(entries, detailed), stages);
      FirstNamed(plan, mismatches, Precondition, code);
      stop := Some(Refusal(plan, [], mismatches, [], failure));
      RefusalDelivered(store, plan, run, mismatches, failure);
    }
  }
}
