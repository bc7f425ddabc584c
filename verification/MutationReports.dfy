/**
 The reports an executor can make, and why no evaluator calls one inconsistent;
 and what a cleaned tree looks like compared with the tree the run started from.
 */
module MutationReports {
  import opened Foundations
  import opened MutationModel
  import opened MutationEvaluate
  import opened MutationPlan
  import opened MutationRun
  import opened MutationSteps
  import opened MutationCleanup
  import opened MutationPhases
  import opened MutationRecovery

  lemma PrefixIsEffectList(plan: Plan, k: nat)
    requires WellFormedPlan(plan) && k <= |EffectPaths(plan)|
    ensures EffectList(plan, EffectPaths(plan)[..k])
  {
    UniqueIffDistinct(EffectPaths(plan)[..k]);
  }

  lemma IsEffectList(plan: Plan, paths: seq<Path>)
    requires Distinct(paths) && forall path <- paths :: path in EffectPaths(plan)
    ensures EffectList(plan, paths)
  {
    UniqueIffDistinct(paths);
  }

  lemma NoPaths(plan: Plan)
    ensures EffectList(plan, []) && EvidenceList(plan, [])
  {
    UniqueIffDistinct<Path>([]);
  }

  lemma EffectIsEvidence(plan: Plan, path: Path)
    requires WellFormedPlan(plan) && path in EffectPaths(plan)
    ensures path in AllowedEvidence(plan)
  {
    var entry :| entry in plan.body.preconditions && entry.path == path && (entry.kind == File || entry.kind == Missing);
    var i :| 0 <= i < |plan.body.preconditions| && plan.body.preconditions[i] == entry;
    assert PreconditionPaths(plan)[i] == path;
  }

  /** Stage residue and directory residue together name known places once. */
  lemma ResidueIsEvidence(plan: Plan, stages: seq<Path>, directories: seq<Path>)
    requires WellFormedPlan(plan) && Distinct(stages) && Distinct(directories)
    requires forall path <- stages :: path in plan.body.stagePreconditions
    requires forall path <- directories :: path in PreconditionPaths(plan)
    ensures EvidenceList(plan, stages + directories)
  {
    var all := stages + directories;
    forall i, j | 0 <= i < j < |all| ensures all[i] != all[j] {
      if i < |stages| <= j {
        assert stages[i] in stages && directories[j - |stages|] in directories;
      }
    }
    UniqueIffDistinct(all);
  }

  predicate FailureNamed(plan: Plan, failure: Failure) {
    failure.path.Some? ==> failure.path.value in AllowedEvidence(plan)
  }

  function Refusal(plan: Plan, prepared: seq<Path>, mismatches: seq<Path>, residue: seq<Path>, failure: Failure): Observation {
    EmptyObservation(plan).(prepared := prepared, preconditionMismatches := mismatches,
                            cleanupResidue := residue, failure := Some(failure))
  }

  lemma RefusalIsValid(plan: Plan, prepared: seq<Path>, mismatches: seq<Path>, residue: seq<Path>, failure: Failure)
    requires WellFormedPlan(plan) && prepared <= EffectPaths(plan)
    requires EvidenceList(plan, mismatches) && EvidenceList(plan, residue) && FailureNamed(plan, failure)
    requires failure.stage == Precondition || failure.stage == Prepare
    ensures ValidInitObservation(plan, Refusal(plan, prepared, mismatches, residue, failure))
  {
    NoPaths(plan);
    PrefixIsEffectList(plan, |prepared|);
    assert EffectPaths(plan)[..|prepared|] == prepared;
  }

  function Commit(plan: Plan, residue: seq<Path>): Observation {
    EmptyObservation(plan).(
      committed := true, prepared := EffectPaths(plan), attempted := EffectPaths(plan), applied := EffectPaths(plan),
      cleanupResidue := residue,
      failure := if residue == [] then None else Some(Failure(Cleanup, CleanupFailed, Some(residue[0]))))
  }

  lemma CommitIsValid(plan: Plan, residue: seq<Path>)
    requires WellFormedPlan(plan) && Distinct(residue)
    requires forall path <- residue :: path in plan.body.stagePreconditions
    ensures ValidInitObservation(plan, Commit(plan, residue))
  {
    NoPaths(plan);
    PrefixIsEffectList(plan, |EffectPaths(plan)|);
    assert EffectPaths(plan)[..|EffectPaths(plan)|] == EffectPaths(plan);
    ResidueIsEvidence(plan, residue, []);
    assert residue + [] == residue;
    assert residue != [] ==> residue[0] in residue;
  }

  function Recovered(plan: Plan, attempted: seq<Path>, applied: seq<Path>, r: RecoveryState,
                     retained: seq<Path>, residue: seq<Path>, failure: Failure): Observation {
    Observation(plan.planId, false, EffectPaths(plan), attempted, applied, r.recoveryAttempted, r.restored,
                r.unrecovered, r.invalidated, r.invalidationFailed, retained, residue, [], Some(failure))
  }

  ghost predicate RecoveryReport(plan: Plan, attempted: seq<Path>, applied: seq<Path>, r: RecoveryState) {
    && WellFormedPlan(plan) && |attempted| <= |EffectPaths(plan)|
    && attempted == EffectPaths(plan)[..|attempted|] && applied <= attempted && attempted != []
    && RecoveryLists(attempted, 0, r)
  }

  lemma RecoveryListsAreEffects(plan: Plan, attempted: seq<Path>, applied: seq<Path>, r: RecoveryState)
    requires RecoveryReport(plan, attempted, applied, r)
    ensures EffectList(plan, attempted) && EffectList(plan, applied) && EffectList(plan, r.recoveryAttempted)
    ensures EffectList(plan, r.restored) && EffectList(plan, r.unrecovered)
    ensures r.recoveryAttempted == Reverse(attempted)
  {
    PrefixIsEffectList(plan, |attempted|);
    PrefixIsEffectList(plan, |applied|);
    assert EffectPaths(plan)[..|applied|] == applied;
    assert attempted[0..] == attempted;
    assert Reverse(attempted)[..|attempted|] == Reverse(attempted);
    DistinctReverse(attempted);
    assert forall path <- attempted :: path in EffectPaths(plan);
    forall path | path in r.recoveryAttempted ensures path in EffectPaths(plan) {
      assert path in ToSet(Reverse(attempted));
    }
    forall path | path in r.restored || path in r.unrecovered ensures path in EffectPaths(plan) {
      assert path in ToSet(r.restored) + ToSet(r.unrecovered);
    }
    IsEffectList(plan, r.recoveryAttempted);
    IsEffectList(plan, r.restored);
    IsEffectList(plan, r.unrecovered);
  }

  lemma RecoverySorts(plan: Plan, attempted: seq<Path>, applied: seq<Path>, r: RecoveryState)
    requires RecoveryReport(plan, attempted, applied, r)
    ensures |ToSet(r.restored + r.unrecovered)| == |attempted|
    ensures forall path <- attempted :: path in r.restored || path in r.unrecovered
  {
    assert attempted[0..] == attempted;
    UniqueIffDistinct(attempted);
    assert ToSet(r.restored + r.unrecovered) == ToSet(r.restored) + ToSet(r.unrecovered);
    forall path | path in attempted ensures path in r.restored || path in r.unrecovered {
      assert path in ToSet(attempted);
    }
  }

  /** The marker's removal is on record exactly when a path was lost. */
  predicate LossHandled(plan: Plan, r: RecoveryState, retained: seq<Path>) {
    if r.unrecovered == [] then r.invalidated == [] && r.invalidationFailed == [] && retained == []
    else
      && retained == plan.body.stagePreconditions
      && (|| (r.invalidated == [plan.body.commitMarker] && r.invalidationFailed == [])
          || (r.invalidated == [] && r.invalidationFailed == [plan.body.commitMarker]))
  }

  lemma RecoveredListsFit(plan: Plan, attempted: seq<Path>, applied: seq<Path>, r: RecoveryState,
                          retained: seq<Path>, residue: seq<Path>, failure: Failure)
    requires WellFormedPlan(plan)
    requires EffectList(plan, attempted) && EffectList(plan, applied)
    requires EffectList(plan, r.recoveryAttempted) && EffectList(plan, r.restored) && EffectList(plan, r.unrecovered)
    requires EvidenceList(plan, retained) && EvidenceList(plan, residue)
    requires attempted <= EffectPaths(plan) && applied <= attempted
    requires FailureNamed(plan, failure) && LossHandled(plan, r, retained)
    ensures WellFormedLists(plan, Recovered(plan, attempted, applied, r, retained, residue, failure))
  {
    NoPaths(plan);
    AllEffectsListed(plan);
  }

  lemma LossIsRetained(plan: Plan, attempted: seq<Path>, applied: seq<Path>, r: RecoveryState,
                       retained: seq<Path>, residue: seq<Path>, failure: Failure)
    requires LossHandled(plan, r, retained)
    ensures RetentionShape(plan, Recovered(plan, attempted, applied, r, retained, residue, failure))
  {
  }

  lemma RecoveryIsSorted(plan: Plan, attempted: seq<Path>, applied: seq<Path>, r: RecoveryState,
                         retained: seq<Path>, residue: seq<Path>, failure: Failure)
    requires RecoveryReport(plan, attempted, applied, r)
    ensures RecoveryShape(plan, Recovered(plan, attempted, applied, r, retained, residue, failure))
  {
    RecoverySorts(plan, attempted, applied, r);
    assert Reverse(attempted)[..|attempted|] == Reverse(attempted);
  }

  lemma ShapesMakeValid(plan: Plan, o: Observation)
    requires WellFormedLists(plan, o) && RecoveryShape(plan, o) && RetentionShape(plan, o)
    requires !o.committed && (FailedAt(o, Apply) || FailedAt(o, Recovery)) && o.attempted != []
    requires o.preconditionMismatches == []
    ensures ValidInitObservation(plan, o)
  {
  }

  lemma RecoveredIsValid(plan: Plan, attempted: seq<Path>, applied: seq<Path>, r: RecoveryState,
                         retained: seq<Path>, residue: seq<Path>, failure: Failure)
    requires RecoveryReport(plan, attempted, applied, r)
    requires EvidenceList(plan, retained) && EvidenceList(plan, residue)
    requires FailureNamed(plan, failure) && LossHandled(plan, r, retained)
    requires failure.stage == Apply || failure.stage == Recovery
    ensures ValidInitObservation(plan, Recovered(plan, attempted, applied, r, retained, residue, failure))
  {
    RecoveryListsAreEffects(plan, attempted, applied, r);
    RecoveryIsSorted(plan, attempted, applied, r, retained, residue, failure);
    RecoveredListsFit(plan, attempted, applied, r, retained, residue, failure);
    LossIsRetained(plan, attempted, applied, r, retained, residue, failure);
    ShapesMakeValid(plan, Recovered(plan, attempted, applied, r, retained, residue, failure));
  }

  lemma AllEffectsListed(plan: Plan)
    requires WellFormedPlan(plan)
    ensures EffectList(plan, EffectPaths(plan))
    ensures EffectList(plan, [plan.body.commitMarker])
    ensures EvidenceList(plan, plan.body.stagePreconditions)
  {
    PrefixIsEffectList(plan, |EffectPaths(plan)|);
    assert EffectPaths(plan)[..|EffectPaths(plan)|] == EffectPaths(plan);
    assert EffectPaths(plan)[|EffectPaths(plan)| - 1] == plan.body.commitMarker;
    IsEffectList(plan, [plan.body.commitMarker]);
    ResidueIsEvidence(plan, plan.body.stagePreconditions, []);
    assert plan.body.stagePreconditions + [] == plan.body.stagePreconditions;
  }

  /** A recovery that lost a path keeps every stage and has dealt with the marker. */
  lemma LossIsReportable(plan: Plan, attempted: seq<Path>, applied: seq<Path>, r: RecoveryState)
    requires RecoveryReport(plan, attempted, applied, r) && r.unrecovered != []
    ensures FailureNamed(plan, Failure(Recovery, RestoreFailed, Some(r.unrecovered[0])))
    ensures EvidenceList(plan, plan.body.stagePreconditions) && EvidenceList(plan, [])
  {
    NoPaths(plan);
    AllEffectsListed(plan);
    RecoveryListsAreEffects(plan, attempted, applied, r);
    assert r.unrecovered[0] in r.unrecovered;
    EffectIsEvidence(plan, r.unrecovered[0]);
  }

  // ---------------------------------------------------------------------
  // The tree afterwards
  // ---------------------------------------------------------------------

  ghost predicate SameFileAt(a: Nodes, b: Nodes, place: Place) {
    (place in a <==> place in b) && (place in a ==> SameNode(a[place], b[place]))
  }

  /** The initial tree is back; the one thing that may be left is a directory nobody was told about. */
  ghost predicate TreeRestored(before: Nodes, nodes: Nodes, orphan: Option<Place>) {
    && (forall place: Place :: orphan != Some(place) ==> SameFileAt(before, nodes, place))
    && (orphan.Some? ==> orphan.value !in before && orphan.value in nodes)
  }

  ghost predicate Rooted(nodes: Nodes) {
    forall place <- nodes :: place.Staged? ==> Stage(place.stage) in nodes
  }

  ghost predicate StagesGone(plan: Plan, nodes: Nodes, orphan: Option<Place>) {
    forall path <- plan.body.stagePreconditions :: Stage(path) in nodes ==> orphan == Some(Stage(path))
  }

  ghost predicate FoldersGone(created: seq<Owned>, nodes: Nodes) {
    forall path <- OwnedPaths(created) :: Managed(path) !in nodes
  }

  /** An orphan is empty, new, and none of the run's own directories. */
  ghost predicate OrphanKnown(before: Nodes, nodes: Nodes, orphan: Option<Place>) {
    orphan.Some? ==>
      && orphan.value !in before && orphan.value in nodes && nodes[orphan.value].Folder?
      && (orphan.value.Stage? ==> forall slot :: Staged(orphan.value.path, slot) !in nodes)
      && !orphan.value.Staged?
  }

  predicate IsTarget(run: Run, place: Place) {
    exists i: nat :: i < |run.items| && place == Target(run, i)
  }

  /** Apart from the destinations and an orphan, nothing differs. */
  ghost predicate SurroundingsKept(run: Run, nodes: Nodes, orphan: Option<Place>) {
    forall place: Place :: SameAt(run.before, nodes, place) || orphan == Some(place) || IsTarget(run, place)
  }

  lemma CleanedTreeKeepsSurroundings(plan: Plan, run: Run, created: seq<Owned>, orphan: Option<Place>, nodes: Nodes)
    requires ItemsMatch(plan, run) && Rooted(run.before) && Rooted(nodes)
    requires Confined(plan, ToSet(OwnedPaths(created)), orphan, run.before, nodes)
    requires forall path <- plan.body.stagePreconditions :: Stage(path) !in run.before
    requires StagesGone(plan, nodes, orphan) && FoldersGone(created, nodes) && OrphanKnown(run.before, nodes, orphan)
    requires PlannedMissing(plan, run.before, created)
    ensures SurroundingsKept(run, nodes, orphan)
  {
    forall place: Place | orphan != Some(place)
      ensures SameAt(run.before, nodes, place) || IsTarget(run, place)
    {
      if place.Managed? && place.path in EffectPaths(plan) {
        var i: nat :| i < |EffectPaths(plan)| && EffectPaths(plan)[i] == place.path;
        assert place == Target(run, i);
      }
    }
  }

  lemma RestoredTree(run: Run, nodes: Nodes, orphan: Option<Place>)
    requires SurroundingsKept(run, nodes, orphan) && AllInitial(run, nodes) && OrphanKnown(run.before, nodes, orphan)
    ensures TreeRestored(run.before, nodes, orphan)
  {
    forall place: Place | orphan != Some(place) ensures SameFileAt(run.before, nodes, place) {
      if !SameAt(run.before, nodes, place) {
        var i: nat :| i < |run.items| && place == Target(run, i);
        assert AtInitial(run, nodes, i);
      }
    }
  }

  lemma SameTree(run: Run, nodes: Nodes)
    requires SurroundingsKept(run, nodes, None) && SameTargets(run, run.before, nodes)
    ensures nodes == run.before
  {
    forall place: Place
      ensures place in nodes <==> place in run.before
      ensures place in nodes ==> nodes[place] == run.before[place]
    {
      if IsTarget(run, place) {
        var i: nat :| i < |run.items| && place == Target(run, i);
        assert SameAt(run.before, nodes, Target(run, i));
      } else {
        assert SameAt(run.before, nodes, place);
      }
    }
    assert nodes.Keys == run.before.Keys;
  }
}
