/**
 `executeActivationMutation` (packages/cli/src/activation-mutation.ts:190-615): the same
 protocol as Init, with exact modes, verified copies, and the removal of the legacy
 directory as the last step before the run counts as committed.
 */
module ActivationMutation {
  import opened Foundations
  import opened MutationModel
  import opened MutationStore
  import opened MutationEvaluate
  import opened MutationPlan
  import opened MutationRun
  import opened MutationSteps
  import opened MutationCleanup
  import opened MutationPhases
  import opened MutationRecovery
  import opened MutationReports
  import opened MutationFinish
  import opened MutationLoss
  import opened MutationPrepare
  import opened MutationVerdict
  import opened MutationStop
  import opened ActivationScope
  import opened ActivationRecovery
  import opened ActivationFolder
  import opened ActivationReady
  import opened MutationCurrent

  datatype PlannedPayload = PlannedPayload(digest: Digest, bytes: Bytes, mode: Mode)

  function ContentFor(effect: Effect, payloads: map<Path, PlannedPayload>): Option<Content> {
    if effect.kind.Remove? then Some(Content("", {}))
    else if effect.path !in payloads then None
    else
      var payload := payloads[effect.path];
      if payload.digest == effect.digest && Sha256(payload.bytes) == effect.digest &&
         Some(payload.mode) == effect.mode && ValidMode(payload.mode)
      then Some(Content(payload.bytes, payload.mode))
      else None
  }

  // ---------------------------------------------------------------------
  // Undo
  // ---------------------------------------------------------------------

  /** The run as it is tracked once the legacy directory may have been removed. */
  ghost predicate Moved(plan: Plan, run: Run, run': Run) {
    run' == run || (run' == Migrated(plan, run) && Migrates(plan) && FolderAt(run.before, LEGACY_DIRECTORY))
  }

  lemma MovedIsSameRun(plan: Plan, run: Run, run': Run)
    requires Moved(plan, run, run') && ItemsMatch(plan, run) && LEGACY_DIRECTORY !in EffectPaths(plan)
    ensures SameRun(run, run') && SameRun(run', run)
  {
    MigratedIsSameRun(plan, run);
  }

  lemma AllUndone(plan: Plan, run: Run, view: seq<Side>, attempted: seq<Path>, r: RecoveryState, flags: Flags)
    requires view != [] && UndoneFrom(plan, run, view, attempted, 0, r, flags) && r.unrecovered == []
    ensures Untaken(view) && MarkerUntouched(flags)
  {
    forall j | 0 <= j < |attempted| ensures view[j] == Restored {
      assert attempted[j] in ToSet(attempted[0..]);
      assert attempted[j] in ToSet(r.restored) + ToSet(r.unrecovered);
    }
  }

  /** A migration removes at least one file that was there. */
  lemma RemovedOriginal(plan: Plan, run: Run, originals: set<Path>) returns (path: Path)
    requires WellFormedActivation(plan) && Migrates(plan) && ItemsMatch(plan, run) && PlanFits(plan, run.before)
    requires OriginalsKnown(run, originals, |run.items|)
    ensures path in EffectPaths(plan) && path in originals && ParentPath(path) == LEGACY_DIRECTORY
  {
    var effect :| effect in plan.body.effects && effect.kind.Remove?;
    var i :| 0 <= i < |plan.body.effects| && plan.body.effects[i] == effect;
    path := effect.path;
    var entry :| entry in plan.body.preconditions && entry.path == path && entry.kind == File;
    assert Truthful(run.before, entry);
    assert run.items[i].path == path && EffectPaths(plan)[i] == path;
  }

  lemma AllAreRestored(attempted: seq<Path>, r: RecoveryState, path: Path)
    requires RecoveryLists(attempted, 0, r) && r.unrecovered == [] && path in attempted
    ensures path in r.restored
  {
    assert attempted[0..] == attempted;
    assert path in ToSet(attempted);
    assert path in ToSet(r.restored) + ToSet(r.unrecovered);
  }

  /** A migration undone completely has its directory back: its files could not be without it. */
  lemma LegacyIsBack(plan: Plan, run: Run, r: RecoveryState, originals: set<Path>, nodes: Nodes)
    requires WellFormedActivation(plan) && Migrates(plan) && ItemsMatch(plan, run) && PlanFits(plan, run.before)
    requires OriginalsKnown(run, originals, |run.items|) && FolderBack(nodes, r, originals)
    requires RecoveryLists(EffectPaths(plan), 0, r) && r.unrecovered == []
    ensures FolderAt(nodes, LEGACY_DIRECTORY)
  {
    var path := RemovedOriginal(plan, run, originals);
    AllAreRestored(EffectPaths(plan), r, path);
  }

  lemma UndoneTree(plan: Plan, run: Run, run': Run, nodes: Nodes, orphan: Option<Place>)
    requires Moved(plan, run, run') && TreeRestored(run'.before, nodes, orphan)
    requires orphan.Some? ==> nodes[orphan.value].Folder?
    requires run' != run ==> orphan == Some(Managed(LEGACY_DIRECTORY))
    ensures TreeRestored(run.before, nodes, orphan) || (Migrates(plan) && FolderRemade(run.before, nodes))
  {
    if run' != run {
      forall place: Place | place != Managed(LEGACY_DIRECTORY) ensures SameFileAt(run.before, nodes, place) {
        assert SameFileAt(run'.before, nodes, place);
      }
    }
  }

  method FinishUndone(store: Store, plan: Plan, made: PreparedRun, attempted: seq<Path>, applied: seq<Path>,
                      r: RecoveryState, applyFailure: Failure,
                      ghost run: Run, ghost run': Run, ghost copies: seq<Identity>, ghost view: seq<Side>)
    returns (o: Observation)
    requires Underway(store, plan, run', copies, view, made) && Untaken(view) && WellFormedActivation(plan)
    requires Moved(plan, run, run') && (run' != run ==> store.orphan == Some(Managed(LEGACY_DIRECTORY)))
    requires RecoveryReport(plan, attempted, applied, r) && r.unrecovered == []
    requires LossHandled(plan, r, []) && FailureNamed(plan, applyFailure) && applyFailure.stage == Apply
    requires MarkerUntouched(store.flags)
    modifies store`nodes, store`trace, store`flags
    ensures Delivered(store, plan, run, o)
    ensures store.calm && Clearable(run', old(store.nodes), made.p.stages, made.created, store.orphan) ==>
      Evaluate(plan, o) == ApplyFailedRecovered
  {
    hide Clearable, Planted, TraceOk, MarkerKnown, VerdictHolds, Evaluate, Holds, ViewOk;
    MovedIsSameRun(plan, run, run');
    var residue := Abandon(store, plan, made.p.stages, made.created, run', copies, view);
    if residue == [] {
      RestoredTree(run', store.nodes, store.orphan);
      UndoneTree(plan, run, run', store.nodes, store.orphan);
    }
    SameRunSides(run', run, store.nodes);
    SameRunTrace(run', run, store.trace, store.flags);
    SameRunMarker(run', run, store.nodes, store.flags.copy);
    o := Recovered(plan, attempted, applied, r, [], residue, applyFailure);
    RecoveryVerdict(plan, run, store.nodes, store.orphan, store.flags.copy, attempted, applied, r, residue, applyFailure);
  }

  method FinishLost(store: Store, plan: Plan, attempted: seq<Path>, applied: seq<Path>, r: RecoveryState,
                    ghost run: Run, ghost run': Run, ghost copies: seq<Identity>, ghost view: seq<Side>)
    returns (o: Observation)
    requires Tracking(store, run', copies, view) && |copies| == |run'.items| && SameRun(run', run)
    requires UndoneFrom(plan, run', view, attempted, 0, r, store.flags) && WellFormedActivation(plan)
    requires RecoveryReport(plan, attempted, applied, r) && r.unrecovered != []
    modifies store`nodes, store`trace, store`flags
    ensures Delivered(store, plan, run, o)
  {
    hide Planted, Holds, TraceOk, MarkerKnown, VerdictHolds, Evaluate, ValidInitObservation, ValidActivationObservation;
    var r';
    ghost var view';
    r', view' := RemoveLostMarker(store, plan, r, run', copies, view, attempted);
    o := LossReport(plan, attempted, applied, r');
    LossIsValid(plan, attempted, applied, r');
    LossFromView(plan, run', store.nodes, copies, view', store.flags, o);
    SameRunLoss(plan, run', run, store.nodes, store.flags.copy, o);
    SameRunTrace(run', run, store.trace, store.flags);
    SameRunMarker(run', run, store.nodes, store.flags.copy);
    LossVerdict(plan, run, store.nodes, store.orphan, store.flags.copy, o);
  }

  method FinishUndo(store: Store, plan: Plan, made: PreparedRun, attempted: seq<Path>, applied: seq<Path>,
                    r: RecoveryState, applyFailure: Failure,
                    ghost run: Run, ghost run': Run, ghost copies: seq<Identity>, ghost view: seq<Side>)
    returns (o: Observation)
    requires Underway(store, plan, run', copies, view, made) && WellFormedActivation(plan) && Moved(plan, run, run')
    requires run' != run && r.unrecovered == [] ==> store.orphan == Some(Managed(LEGACY_DIRECTORY))
    requires UndoneFrom(plan, run', view, attempted, 0, r, store.flags) && RecoveryReport(plan, attempted, applied, r)
    requires FailureNamed(plan, applyFailure) && applyFailure.stage == Apply
    modifies store`nodes, store`trace, store`flags
    ensures Delivered(store, plan, run, o)
    ensures store.calm && r.unrecovered == [] && CanStillRemove(run', old(store.nodes), made, store.orphan) ==>
      Evaluate(plan, o) == ApplyFailedRecovered
  {
    hide CanStillRemove, Delivered, Planted;
    if r.unrecovered != [] {
      MovedIsSameRun(plan, run, run');
      o := FinishLost(store, plan, attempted, applied, r, run, run', copies, view);
    } else {
      AllUndone(plan, run', view, attempted, r, store.flags);
      if CanStillRemove(run', store.nodes, made, store.orphan) {
        RestoredIsClearable(store, plan, run', copies, view, made);
      }
      o := FinishUndone(store, plan, made, attempted, applied, r, applyFailure, run, run', copies, view);
    }
  }

  lemma OrphanIsFolder(plan: Plan, run: Run, run': Run, attempted: seq<Path>, r: RecoveryState, originals: set<Path>,
                       nodes: Nodes, created: seq<Owned>, stages: seq<Owned>, orphan: Option<Place>)
    requires WellFormedActivation(plan) && Migrates(plan) && ItemsMatch(plan, run) && PlanFits(plan, run.before)
    requires run' == Migrated(plan, run) && attempted == EffectPaths(plan)
    requires OriginalsKnown(run, originals, |run.items|) && FolderBack(nodes, r, originals)
    requires RecoveryLists(attempted, 0, r) && r.unrecovered == []
    requires Holdings(plan, run', nodes, created, stages, orphan) && LEGACY_DIRECTORY !in OwnedPaths(created)
    ensures orphan == Some(Managed(LEGACY_DIRECTORY))
  {
    LegacyIsBack(plan, run, r, originals, nodes);
    FolderAccounted(plan, run', nodes, created, stages, orphan);
  }

  /** What recovery may rely on about the lists. */
  ghost predicate UndoFacts(plan: Plan, run: Run, run': Run, reached: nat, made: PreparedRun,
                            attempted: seq<Path>, applied: seq<Path>, orphan: Option<Place>)
  {
    && WellFormedActivation(plan) && ItemsMatch(plan, run) && PlanFits(plan, run.before) && run'.items == run.items
    && ApplyLists(plan, attempted, applied, reached) && attempted != []
    && OriginalsKnown(run, made.p.originals, |run.items|) && LEGACY_DIRECTORY !in OwnedPaths(made.created)
    && Moved(plan, run, run') && (run' != run ==> attempted == EffectPaths(plan))
    && (orphan.Some? ==> orphan == Some(Managed(LEGACY_DIRECTORY)))
  }

  ghost predicate ReadyToUndo(store: Store, plan: Plan, run: Run, run': Run, copies: seq<Identity>, reached: nat,
                              made: PreparedRun, attempted: seq<Path>, applied: seq<Path>)
    reads store`nodes, store`nextIdentity, store`flags, store`trace, store`orphan
  {
    && Underway(store, plan, run', copies, Progress(|run.items|, reached, Changed, Ready), made)
    && UndoFacts(plan, run, run', reached, made, attempted, applied, store.orphan) && MarkerUntouched(store.flags)
  }

  lemma AppliedFacts(plan: Plan, run: Run, reached: nat, made: PreparedRun, attempted: seq<Path>, applied: seq<Path>)
    requires Fits(plan, run) && WellFormedActivation(plan) && LEGACY_DIRECTORY !in OwnedPaths(made.created)
    requires OriginalsKnown(run, made.p.originals, |run.items|)
    requires ApplyLists(plan, attempted, applied, reached) && attempted != []
    ensures UndoFacts(plan, run, run, reached, made, attempted, applied, None)
  {
  }

  lemma MovedOriginals(plan: Plan, run: Run, run': Run, originals: set<Path>)
    requires Moved(plan, run, run') && ItemsMatch(plan, run) && LEGACY_DIRECTORY !in EffectPaths(plan)
    requires OriginalsKnown(run, originals, |run.items|)
    ensures OriginalsKnown(run', originals, |run'.items|)
  {
    MovedIsSameRun(plan, run, run');
    forall i: nat | i < |run.items| ensures run.items[i].path in originals <==> Target(run', i) in run'.before {
      assert SameAt(run.before, run'.before, Target(run, i));
    }
  }

  method UndoRun(store: Store, plan: Plan, items: seq<Item>, made: PreparedRun, attempted: seq<Path>, applied: seq<Path>,
                 applyFailure: Failure, ghost run: Run, ghost run': Run, ghost copies: seq<Identity>, ghost reached: nat)
    returns (o: Observation)
    requires ReadyToUndo(store, plan, run, run', copies, reached, made, attempted, applied) && items == run.items
    requires FailureNamed(plan, applyFailure) && applyFailure.stage == Apply
    modifies store`nodes, store`nextIdentity, store`trace, store`flags
    ensures Delivered(store, plan, run, o)
    ensures store.calm && CanStillRemove(run', old(store.nodes), made, store.orphan) && OriginalsPlanned(plan, run', true) &&
            Restorable(run', old(store.nodes), |items|) ==>
      Evaluate(plan, o) == ApplyFailedRecovered
  {
    hide CanStillRemove, FoldersKept, Restorable, OriginalsPlanned, Delivered, Planted, Tracking, FolderBack;
    var r;
    ghost var view;
    MovedOriginals(plan, run, run', made.p.originals);
    r, view := UndoItems(store, plan, items, made.p.originals, attempted, run', copies, reached);
    HoldingsKept(plan, run', old(store.nodes), store.nodes, made.created, made.p.stages, store.orphan);
    if CanStillRemove(run', old(store.nodes), made, store.orphan) {
      CanRemoveLater(run', old(store.nodes), store.nodes, made, store.orphan);
    }
    if run' != run && r.unrecovered == [] {
      OrphanIsFolder(plan, run, run', attempted, r, made.p.originals, store.nodes, made.created, made.p.stages, store.orphan);
    }
    o := FinishUndo(store, plan, made, attempted, applied, r, applyFailure, run, run', copies, view);
  }

  // ---------------------------------------------------------------------
  // Apply
  // ---------------------------------------------------------------------

  method FinishCommitted(store: Store, plan: Plan, made: PreparedRun, ghost run: Run, ghost run': Run, ghost copies: seq<Identity>)
    returns (o: Observation)
    requires Underway(store, plan, run', copies, Progress(|run'.items|, |run'.items|, Changed, Ready), made)
    requires store.orphan == None && WellFormedActivation(plan) && SameRun(run', run) && run' == Migrated(plan, run)
    requires (Migrates(plan) ==> Managed(LEGACY_DIRECTORY) !in store.nodes) && MarkerUntouched(store.flags)
    modifies store`nodes, store`trace, store`flags
    ensures Delivered(store, plan, run, o)
    ensures store.calm && OwnStages(old(store.nodes), made.p.stages) ==> Evaluate(plan, o) == Applied
  {
    hide OwnStages, Planted, TraceOk, MarkerKnown, Holds;
    var residue := Complete(store, plan, made.p.stages, made.created, run', copies,
                            Progress(|run'.items|, |run'.items|, Changed, Ready));
    SameRunSides(run', run, store.nodes);
    SameRunTrace(run', run, store.trace, store.flags);
    SameRunMarker(run', run, store.nodes, store.flags.copy);
    assert SameAt(old(store.nodes), store.nodes, Managed(LEGACY_DIRECTORY));
    o := Commit(plan, residue);
    CommitVerdict(plan, run, store.nodes, store.orphan, store.flags.copy, residue);
  }

  lemma LegacyFolderThere(plan: Plan, run: Run, nodes: Nodes, created: seq<Owned>)
    requires WellFormedActivation(plan) && Migrates(plan) && PlanFits(plan, run.before)
    requires Confined(plan, ToSet(OwnedPaths(created)), None, run.before, nodes)
    requires LEGACY_DIRECTORY !in OwnedPaths(created)
    ensures FolderAt(run.before, LEGACY_DIRECTORY) && FolderAt(nodes, LEGACY_DIRECTORY)
    ensures LEGACY_DIRECTORY !in plan.body.stagePreconditions && LEGACY_DIRECTORY in AllowedEvidence(plan)
  {
    var entry :| entry in plan.body.preconditions && entry.path == LEGACY_DIRECTORY && entry.kind == Directory;
    assert Truthful(run.before, entry);
    ListedPath(plan.body.preconditions, entry);
    assert SameAt(run.before, nodes, Managed(LEGACY_DIRECTORY)) ||
           MayTouch(plan, ToSet(OwnedPaths(created)), None, Managed(LEGACY_DIRECTORY));
  }

  lemma StagesRemain(a: Nodes, b: Nodes, stages: seq<Owned>, place: Place)
    requires OwnStages(a, stages) && b == a - {place} && place.Managed?
    ensures OwnStages(b, stages)
  {
    forall k | 0 <= k < |stages| ensures OwnStage(b, stages[k]) {
      assert OwnStage(a, stages[k]);
    }
  }

  /** All effects are in place: remove the legacy directory if this is a migration, and finish. */
  method FinishApplied(store: Store, plan: Plan, items: seq<Item>, made: PreparedRun, attempted: seq<Path>, applied: seq<Path>,
                       ghost run: Run, ghost copies: seq<Identity>)
    returns (o: Observation)
    requires ReadyToUndo(store, plan, run, run, copies, |run.items|, made, attempted, applied) && items == run.items
    requires store.orphan == None && attempted == EffectPaths(plan)
    modifies store`nodes, store`nextIdentity, store`trace, store`flags, store`orphan
    ensures Delivered(store, plan, run, o)
    ensures store.calm && Finishing(plan, old(store.nodes), made.p.stages) ==>
      store.orphan == None && Evaluate(plan, o) == Applied
  {
    hide OwnStages, EmptyFolder, Delivered, Planted;
    if HasRemoval(plan) {
      LegacyFolderThere(plan, run, store.nodes, made.created);
      var ok;
      ghost var run';
      ok, run' := RemoveLegacyFolder(store, plan, made, run, copies);
      MigratedIsSameRun(plan, run);
      if ok {
        if OwnStages(old(store.nodes), made.p.stages) {
          StagesRemain(old(store.nodes), store.nodes, made.p.stages, Managed(LEGACY_DIRECTORY));
        }
        o := FinishCommitted(store, plan, made, run, run', copies);
      } else {
        o := UndoRun(store, plan, items, made, attempted, applied,
                     Failure(Apply, ReplacementFailed, Some(LEGACY_DIRECTORY)), run, run', copies, |run.items|);
      }
    } else {
      MigratedIsSameRun(plan, run);
      o := FinishCommitted(store, plan, made, run, run, copies);
    }
  }

  method ApplyRun(store: Store, plan: Plan, items: seq<Item>, made: PreparedRun,
                  ghost run: Run, ghost copies: seq<Identity>)
    returns (o: Observation)
    requires ReadyToApply(store, plan, run, copies, made) && items == run.items && WellFormedActivation(plan)
    requires LEGACY_DIRECTORY !in OwnedPaths(made.created)
    modifies store`nodes, store`nextIdentity, store`trace, store`flags, store`interrupted, store`orphan
    ensures Delivered(store, plan, run, o)
    ensures store.calm && CanRemove(run, old(store.nodes), made) && Housing(run, old(store.nodes)) &&
            OriginalsPlanned(plan, run, true) && LastStepsClear(plan, run, made) ==>
      store.orphan == None && Evaluate(plan, o) == if store.interrupted then ApplyFailedRecovered else Applied
  {
    hide Planted;
    hide CanRemove, CanStillRemove, Restorable, FoldersKept, NoNewRestore, Housing, Delivered, OwnStages, OriginalsPlanned;
    hide Vacates, CreatedElsewhere, UndoFacts, Finishing, TraceOk, MarkerKnown, StepOk, ViewOk, FreshCopies;
    var attempted, applied, failure;
    ghost var reached;
    attempted, applied, failure, reached := ApplyPrepared(store, plan, items, made, run, copies);
    AppliedFacts(plan, run, reached, made, attempted, applied);
    if CanRemove(run, old(store.nodes), made) && Housing(run, old(store.nodes)) {
      AppliedCanBeUndone(plan, run, old(store.nodes), store.nodes, made);
    }
    if failure.Some? {
      o := UndoRun(store, plan, items, made, attempted, applied, failure.value, run, run, copies, reached);
    } else {
      if OwnStages(store.nodes, made.p.stages) && LastStepsClear(plan, run, made) {
        ReadyToFinish(plan, run, copies, store.nodes, made);
      }
      o := FinishApplied(store, plan, items, made, attempted, applied, run, copies);
    }
  }

  ghost predicate LastStepsClear(plan: Plan, run: Run, made: PreparedRun) {
    CreatedElsewhere(OwnedPaths(made.created)) && (HasRemoval(plan) ==> Vacates(plan, run.before))
  }

  // ---------------------------------------------------------------------
  // The whole run
  // ---------------------------------------------------------------------

  lemma CreatedDirectoriesDiffer()
    ensures Distinct(CREATED_DIRECTORIES) && LEGACY_DIRECTORY !in CREATED_DIRECTORIES
  {
    ScopeLengths();
  }

  lemma EffectAlone(plan: Plan, path: Path)
    requires WellFormedPlan(plan) && path in EffectPaths(plan)
    ensures EvidenceList(plan, [path])
  {
    EffectIsEvidence(plan, path);
    UniqueIffDistinct([path]);
  }

  /** A destination is no longer the file the plan was made for. */
  method StopReplaced(store: Store, plan: Plan, made: PreparedRun, ghost run: Run, ghost copies: seq<Identity>)
    returns (o: Observation)
    requires Halted(store, plan, run, copies, made) && store.orphan == None
    modifies store`nodes, store`trace, store`flags
    ensures Delivered(store, plan, run, o)
  {
    hide Planted;
    var path := plan.body.effects[|made.p.prepared|].path;
    assert path == EffectPaths(plan)[|made.p.prepared|];
    EffectAlone(plan, path);
    o := StopStale(store, plan, made, [path], |made.p.prepared|, run, copies);
  }

  /** What an undisturbed run needs in order to be applied. */
  ghost predicate Finishable(plan: Plan, looks: Looks, run: Run) {
    && Reachable(plan, CREATED_DIRECTORIES) && UpToDate(plan, looks, run.before)
    && (HasRemoval(plan) ==> Vacates(plan, run.before))
  }

  lemma UpToDateIsCurrent(plan: Plan, looks: Looks, nodes: Nodes)
    requires UpToDate(plan, looks, nodes)
    ensures Current(plan, looks, nodes, SCOPE, true, LISTED) && Planted(nodes)
  {
  }

  method RunPlan(store: Store, plan: Plan, contents: seq<Content>, ghost run: Run)
    returns (o: Observation)
    requires Fits(plan, run) && |contents| == |plan.body.effects| && WellFormedActivation(plan)
    requires run == RunFor(plan, contents, {}, store.nodes)
    requires store.Valid() && store.trace == [] && store.orphan == None
    requires store.flags == Flags(None, false, false, false)
    modifies store
    ensures Delivered(store, plan, run, o)
    ensures store.calm && Finishable(plan, store.looks, run) ==>
      store.orphan == None && Evaluate(plan, o) == if store.interrupted then ApplyFailedRecovered else Applied
  {
    hide Planted;
    hide Supplied, Housing, Reachable, UpToDate, Vacates, Delivered, OriginalsPlanned, Tracking, Holdings, ParentFirst;
    if UpToDate(plan, store.looks, run.before) {
      UpToDateIsCurrent(plan, store.looks, run.before);
      OriginalsAgree(plan, store.looks, run);
    }
    ghost var copies := NewestFor(run, store.nextIdentity);
    NothingTaken(store, run);
    var result, made;
    CreatedDirectoriesDiffer();
    result, made, copies := PrepareRun(store, plan, CREATED_DIRECTORIES, contents, true, true, run, copies);
    if result == Prepared {
      o := FinishPrepared(store, plan, contents, made, run, copies);
    } else if result == Stale {
      o := StopReplaced(store, plan, made, run, copies);
    } else {
      o := StopPreparing(store, plan, made, run, copies);
    }
  }

  method FinishPrepared(store: Store, plan: Plan, contents: seq<Content>, made: PreparedRun,
                        ghost run: Run, ghost copies: seq<Identity>)
    returns (o: Observation)
    requires ReadyToApply(store, plan, run, copies, made) && WellFormedActivation(plan)
    requires |contents| == |plan.body.effects| && run.items == ItemsOf(plan, contents, {})
    requires LEGACY_DIRECTORY !in OwnedPaths(made.created)
    requires forall path <- OwnedPaths(made.created) :: path in CREATED_DIRECTORIES
    modifies store
    ensures Delivered(store, plan, run, o)
    ensures store.calm && Finishable(plan, store.looks, run) && OriginalsPlanned(plan, run, true) &&
            CanRemove(run, old(store.nodes), made) && Housing(run, old(store.nodes)) ==>
      store.orphan == None && Evaluate(plan, o) == if store.interrupted then ApplyFailedRecovered else Applied
  {
    hide Planted, TraceOk, MarkerKnown, ViewOk, Holds, StepOk;
    hide CanRemove, Housing, Reachable, UpToDate, Vacates, SecondLookFits, Delivered, ParentPath, OriginalsPlanned;
    if UpToDate(plan, store.looks, run.before) && CanRemove(run, store.nodes, made) {
      CanRemoveSupplied(run, store.nodes, made);
      PreparedIsCurrent(store, plan, run, copies, made);
    }
    NotInListed(OwnedPaths(made.created));
    var stop := LookAgain(store, plan, SCOPE, true, LISTED, StillEmpty, made, run, copies);
    if stop.Some? {
      o := stop.value;
    } else {
      o := ApplyRun(store, plan, ItemsOf(plan, contents, {}), made, run, copies);
    }
  }

  /** Every path can be reached, and a legacy directory holds nothing but what the plan removes. */
  ghost predicate Unhindered(plan: Plan, looks: Looks, before: Nodes) {
    && Reachable(plan, CREATED_DIRECTORIES) && looks.names({}) == []
    && (HasRemoval(plan) ==> Vacates(plan, before))
  }

  /**
   Without failures a run is refused when the tree is not the one the plan was made for; otherwise,
   with nothing else in the way, it is undone completely when it was interrupted, and applied
   completely when it was not. No directory is left behind unreported.
   */
  ghost predicate Decided(store: Store, plan: Plan, before: Nodes, o: Observation)
    reads store`interrupted, store`orphan
  {
    store.calm ==>
      if !Current(plan, store.looks, before, SCOPE, true, LISTED) then Evaluate(plan, o) == OperationRefused
      else Unhindered(plan, store.looks, before) ==>
        store.orphan == None && Evaluate(plan, o) == if store.interrupted then ApplyFailedRecovered else Applied
  }

  method CheckAndRun(store: Store, plan: Plan, contents: seq<Content>)
    returns (o: Observation)
    requires store.Valid() && |contents| == |plan.body.effects| && WellFormedActivation(plan)
    requires store.trace == [] && store.orphan == None && store.flags == Flags(None, false, false, false)
    modifies store
    ensures Delivered(store, plan, RunFor(plan, contents, {}, old(store.nodes)), o)
    ensures Decided(store, plan, old(store.nodes), o)
  {
    hide Delivered, Reachable, Current, Fits, Vacates, Planted;
    ScopeDiffers();
    ghost var run := RunFor(plan, contents, {}, store.nodes);
    var stop := CheckPlan(store, plan, SCOPE, true, LISTED, contents, {}, run);
    if stop.Some? {
      o := stop.value;
    } else {
      o := RunPlan(store, plan, contents, run);
    }
  }

  /** Contents for every effect, or the first whose payload does not match the plan. */
  function ContentsOf(plan: Plan, payloads: map<Path, PlannedPayload>): (r: Contents)
    ensures r.Contents? ==> |r.list| == |plan.body.effects|
    ensures r.Invalid? ==> exists i :: 0 <= i < |plan.body.effects| && plan.body.effects[i].path == r.path
  {
    ContentsFor(plan.body.effects, effect => ContentFor(effect, payloads))
  }

  /**
   Whatever fails and whenever the run is interrupted: the report is one that Core accepts,
   Core's verdict on it is true of the tree left behind, and no state on the way broke the promise.
   */
  method ExecuteActivationMutation(store: Store, observedRoot: Option<Identity>, plan: Plan,
                                   payloads: map<Path, PlannedPayload>)
    returns (o: Observation)
    requires store.Valid() && WellFormedActivation(plan)
    modifies store
    ensures observedRoot != Some(plan.body.rootIdentity) ==> Evaluate(plan, o) == OperationRefused
    ensures match ContentsOf(plan, payloads)
      case Invalid(_) => Evaluate(plan, o) == OperationRefused && store.nodes == old(store.nodes)
      case Contents(contents) =>
        && Delivered(store, plan, RunFor(plan, contents, {}, old(store.nodes)), o)
        && (observedRoot == Some(plan.body.rootIdentity) ==> Decided(store, plan, old(store.nodes), o))
  {
    hide Delivered, ContentsOf, Decided, Planted;
    store.trace, store.orphan, store.flags := [], None, Flags(None, false, false, false);
    var contents := ContentsOf(plan, payloads);
    if observedRoot == Some(plan.body.rootIdentity) && contents.Contents? {
      o := CheckAndRun(store, plan, contents.list);
    } else {
      o := RefuseUnchecked(store, plan, observedRoot, contents, {});
    }
  }
}
