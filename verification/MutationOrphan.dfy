/**
 Two outcomes that leave a directory of which no report speaks: `mkdir` succeeded and the `lstat`
 behind it failed (packages/cli/src/init-mutation.ts:111-114), and a legacy directory was made
 again (packages/cli/src/activation-mutation.ts:493-504).
 */
module MutationOrphan {
  import opened Foundations
  import opened MutationModel
  import opened MutationStore
  import opened MutationEvaluate
  import opened MutationPlan
  import opened ActivationScope
  import opened MutationRun
  import opened MutationReports
  import opened MutationVerdict

  /** The report of a run that failed at its first directory. */
  function FailedAtOnce(plan: Plan): Observation {
    Refusal(plan, [], [], [], Failure(Prepare, PreparationFailed, None))
  }

  /**
   Whatever the plan: when only the `lstat` fails, the directory stays, no list of the report is
   filled, and the verdict is "recovered" although the tree is not the initial one.
   */
  lemma DirectoryGoesUnreported(plan: Plan, run: Run, place: Place, newest: Identity)
    requires WellFormedPlan(plan) && run.items != [] && place !in run.before && ParentPresent(run.before, place)
    requires forall i: nat :: i < |run.items| ==> Target(run, i) != place
    ensures var after := run.before[place := Folder(newest)];
      && MakesDirectory(run.before, newest, None, place, None, after, Some(place))
      && ValidObservation(plan, FailedAtOnce(plan)) && Evaluate(plan, FailedAtOnce(plan)) == ApplyFailedRecovered
      && VerdictHolds(plan, run, after, Some(place), None, FailedAtOnce(plan), ApplyFailedRecovered)
      && after != run.before
    ensures FailedAtOnce(plan).cleanupResidue == [] && FailedAtOnce(plan).retained == []
  {
    var after := run.before[place := Folder(newest)];
    NoPaths(plan);
    assert AllInitial(run, after) by {
      forall i: nat | i < |run.items| ensures AtInitial(run, after, i) {
        assert Target(run, i) != place;
      }
    }
    assert TreeRestored(run.before, after, Some(place));
    hide AllInitial, TreeRestored, Evaluate, ValidObservation, WellFormedPlan, ParentPresent;
    PrepareVerdict(plan, run, after, Some(place), None, [], [], Failure(Prepare, PreparationFailed, None));
    assert place in after && place !in run.before;
  }

  /**
   Whatever the plan of a migration: a legacy directory that was removed and made again has another
   identity, and the verdict on a complete undo is "recovered" although the tree is not the initial one.
   */
  lemma FolderComesBackOther(plan: Plan, run: Run, newest: Identity, o: Observation)
    requires run.items != [] && Migrates(plan) && ValidObservation(plan, o)
    requires !o.committed && o.preconditionMismatches == [] && o.unrecovered == [] && o.invalidationFailed == []
    requires FailedAt(o, Apply) && o.cleanupResidue == []
    requires forall i: nat :: i < |run.items| ==> Target(run, i) != Managed(LEGACY_DIRECTORY)
    requires var folder := Managed(LEGACY_DIRECTORY);
      && folder in run.before && run.before[folder].Folder? && run.before[folder].identity != newest
      && ParentPresent(run.before - {folder}, folder)
    ensures var folder := Managed(LEGACY_DIRECTORY);
      var after := run.before[folder := Folder(newest)];
      && MakesDirectory(run.before - {folder}, newest, None, folder, Some(newest), after, None)
      && FolderRemade(run.before, after) && after != run.before
      && Evaluate(plan, o) == ApplyFailedRecovered && VerdictHolds(plan, run, after, None, None, o, ApplyFailedRecovered)
  {
    var folder := Managed(LEGACY_DIRECTORY);
    var after := run.before[folder := Folder(newest)];
    assert (run.before - {folder})[folder := Folder(newest)] == after;
    assert after[folder] != run.before[folder];
    assert AllInitial(run, after) by {
      forall i: nat | i < |run.items| ensures AtInitial(run, after, i) {
        assert Target(run, i) != folder;
      }
    }
    assert FolderRemade(run.before, after);
    hide AllInitial, FolderRemade, Evaluate, ValidObservation, ParentPresent, VerdictHolds, MakesDirectory, HasRemoval;
    RecoveredVerdict(plan, run, after, None, None, o);
  }
}
