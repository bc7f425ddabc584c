/**
 The legacy directory belongs to the migration: it is removed once every effect is in place,
 and made again when the run has to be undone (packages/cli/src/activation-mutation.ts:477-509).
 */
module ActivationFolder {
  import opened Foundations
  import opened MutationModel
  import opened MutationStore
  import opened MutationPlan
  import opened MutationRun
  import opened MutationSteps
  import opened MutationCleanup
  import opened MutationPhases
  import opened MutationFinish
  import opened MutationLoss
  import opened MutationPrepare
  import opened MutationVerdict
  import opened ActivationScope
  import opened ActivationRecovery

  /** The facts about an Activation plan that planning establishes and execution needs. */
  ghost predicate WellFormedActivation(plan: Plan) {
    && WellFormedPlan(plan) && plan.body.operation.Activation?
    && (forall path <- CREATED_DIRECTORIES :: path !in EffectPaths(plan))
    && LEGACY_DIRECTORY !in EffectPaths(plan)
    && (forall effect <- plan.body.effects :: effect.kind.Remove? ==>
          && ParentPath(effect.path) == LEGACY_DIRECTORY
          && exists entry :: entry in plan.body.preconditions && entry.path == effect.path && entry.kind == File)
    && (HasRemoval(plan) ==>
          exists entry :: entry in plan.body.preconditions && entry.path == LEGACY_DIRECTORY && entry.kind == Directory)
  }

  // ---------------------------------------------------------------------
  // A run whose initial tree no longer counts the legacy directory
  // ---------------------------------------------------------------------

  /** Two runs that agree on their items and on every destination. */
  ghost predicate SameRun(run: Run, run': Run) {
    run.items == run'.items && SameTargets(run, run.before, run'.before)
  }

  lemma SameRunSteps(run: Run, run': Run, s: Snapshot)
    requires SameRun(run, run') && run.items != [] && StepOk(run, s)
    ensures StepOk(run', s)
  {
    forall i: nat | i < |run.items|
      ensures AtInitial(run, s.nodes, i) == AtInitial(run', s.nodes, i)
      ensures AtPlanned(run, s.nodes, i) == AtPlanned(run', s.nodes, i)
      ensures CopyKept(run, s.nodes, i) == CopyKept(run', s.nodes, i)
      ensures SameAt(run.before, s.nodes, Target(run, i)) == SameAt(run'.before, s.nodes, Target(run', i))
    {
      assert SameAt(run.before, run'.before, Target(run, i));
    }
  }

  lemma SameRunMarker(run: Run, run': Run, nodes: Nodes, copy: Option<Identity>)
    requires SameRun(run, run') && run.items != [] && MarkerKnown(run, nodes, copy)
    ensures MarkerKnown(run', nodes, copy)
  {
    var last := |run.items| - 1;
    assert SameAt(run.before, run'.before, Target(run, last));
  }

  lemma SameRunTrace(run: Run, run': Run, trace: seq<Snapshot>, flags: Flags)
    requires SameRun(run, run') && run.items != [] && TraceOk(run, trace, flags)
    ensures TraceOk(run', trace, flags)
  {
    forall s | s in trace ensures StepOk(run', s) {
      SameRunSteps(run, run', s);
    }
  }

  lemma SameRunSides(run: Run, run': Run, nodes: Nodes)
    requires SameRun(run, run')
    ensures AllInitial(run, nodes) == AllInitial(run', nodes)
    ensures AllPlanned(run, nodes) == AllPlanned(run', nodes)
  {
    forall i: nat | i < |run.items|
      ensures AtInitial(run, nodes, i) == AtInitial(run', nodes, i)
      ensures AtPlanned(run, nodes, i) == AtPlanned(run', nodes, i)
    {
      assert SameAt(run.before, run'.before, Target(run, i));
    }
  }

  lemma SameRunLoss(plan: Plan, run: Run, run': Run, nodes: Nodes, copy: Option<Identity>, o: Observation)
    requires SameRun(run, run') && run.items != [] && LossContained(plan, run, nodes, copy, o)
    ensures LossContained(plan, run', nodes, copy, o)
  {
    SameRunSides(run, run', nodes);
    forall i: nat | i < |run.items|
      ensures AtInitial(run, nodes, i) == AtInitial(run', nodes, i)
      ensures AtPlanned(run, nodes, i) == AtPlanned(run', nodes, i)
      ensures CopyKept(run, nodes, i) == CopyKept(run', nodes, i)
    {
      assert SameAt(run.before, run'.before, Target(run, i));
    }
  }

  lemma SameRunHolds(run: Run, run': Run, nodes: Nodes, copies: seq<Identity>, view: seq<Side>)
    requires SameRun(run, run') && Holds(run, nodes, copies, view)
    ensures Holds(run', nodes, copies, view)
  {
    forall i: nat | i < |view| ensures ItemIs(run', nodes, copies, i, view[i]) {
      assert ItemIs(run, nodes, copies, i, view[i]);
      assert SameAt(run.before, run'.before, Target(run, i));
    }
  }

  lemma SameRunTracking(store: Store, run: Run, run': Run, copies: seq<Identity>, view: seq<Side>)
    requires SameRun(run, run') && Tracking(store, run, copies, view)
    requires forall place <- run'.before :: place in run.before && run.before[place] == run'.before[place]
    ensures Tracking(store, run', copies, view)
  {
    SameRunHolds(run, run', store.nodes, copies, view);
    SameRunTrace(run, run', store.trace, store.flags);
    forall i: nat | i < |run.items| && Target(run', i) in run'.before
      ensures run'.before[Target(run', i)].RegularFile?
    {
      assert Target(run, i) in run.before;
    }
  }

  lemma MigratedIsSameRun(plan: Plan, run: Run)
    requires ItemsMatch(plan, run) && LEGACY_DIRECTORY !in EffectPaths(plan)
    ensures SameRun(run, Migrated(plan, run)) && SameRun(Migrated(plan, run), run)
  {
    forall i: nat | i < |run.items| ensures SameAt(run.before, Migrated(plan, run).before, Target(run, i)) {
      assert EffectPaths(plan)[i] in EffectPaths(plan);
      assert Target(run, i) != Managed(LEGACY_DIRECTORY);
    }
  }

  // ---------------------------------------------------------------------
  // Operations on the directory
  // ---------------------------------------------------------------------

  /** Changing a directory that is no destination moves no effect. */
  lemma FolderKeepsView(plan: Plan, run: Run, copies: seq<Identity>, view: seq<Side>, a: Nodes, b: Nodes,
                        flags: Flags, trace: seq<Snapshot>)
    requires ItemsMatch(plan, run) && LEGACY_DIRECTORY !in EffectPaths(plan) && WellLaidOut(run)
    requires Holds(run, a, copies, view) && ViewOk(run, copies, view, flags) && TraceOk(run, trace, flags)
    requires SameBeyond(OfDirectories, LEGACY_DIRECTORY, a, b)
    ensures Holds(run, b, copies, view) && TraceOk(run, trace + [Snapshot(b, flags)], flags)
  {
    DirectoryIsNoTarget(plan, run, LEGACY_DIRECTORY, a, b);
    forall i: nat | i < |view| ensures ItemIs(run, b, copies, i, view[i]) {
      assert ItemIs(run, a, copies, i, view[i]) && SameAt(a, b, Target(run, i));
      assert !Inside(OfDirectories, LEGACY_DIRECTORY, InStage(run, i, New));
      assert !Inside(OfDirectories, LEGACY_DIRECTORY, InStage(run, i, Original));
    }
    ViewStep(run, b, copies, view, flags);
    TraceExtends(run, trace, Snapshot(b, flags));
  }

  lemma HoldingsWithoutFolder(plan: Plan, run: Run, a: Nodes, b: Nodes, created: seq<Owned>, stages: seq<Owned>)
    requires Holdings(plan, run, a, created, stages, None) && Migrates(plan)
    requires b == a - {Managed(LEGACY_DIRECTORY)}
    ensures Holdings(plan, Migrated(plan, run), b, created, stages, None)
  {
    var run' := Migrated(plan, run);
    forall place: Place
      ensures SameAt(run'.before, b, place) || MayTouch(plan, ToSet(OwnedPaths(created)), None, place)
    {
      assert SameAt(run.before, a, place) || MayTouch(plan, ToSet(OwnedPaths(created)), None, place);
    }
    assert PlannedMissing(plan, run'.before, created);
  }

  /** A directory that is there although the initial tree does not count it is the run's orphan. */
  lemma HoldingsWithFolder(plan: Plan, run: Run, a: Nodes, b: Nodes, created: seq<Owned>, stages: seq<Owned>, node: Node)
    requires Holdings(plan, run, a, created, stages, None) && node.Folder?
    requires b == a[Managed(LEGACY_DIRECTORY) := node] && Managed(LEGACY_DIRECTORY) !in run.before
    requires LEGACY_DIRECTORY !in OwnedPaths(created) && LEGACY_DIRECTORY !in OwnedPaths(stages)
    ensures Holdings(plan, run, b, created, stages, Some(Managed(LEGACY_DIRECTORY)))
  {
    var orphan := Some(Managed(LEGACY_DIRECTORY));
    forall place: Place
      ensures SameAt(run.before, b, place) || MayTouch(plan, ToSet(OwnedPaths(created)), orphan, place)
    {
      if place != Managed(LEGACY_DIRECTORY) {
        assert SameAt(run.before, a, place) || MayTouch(plan, ToSet(OwnedPaths(created)), None, place);
      }
    }
  }

  lemma FolderAccounted(plan: Plan, run: Run, nodes: Nodes, created: seq<Owned>, stages: seq<Owned>, orphan: Option<Place>)
    requires Holdings(plan, run, nodes, created, stages, orphan)
    requires LEGACY_DIRECTORY !in EffectPaths(plan) && LEGACY_DIRECTORY !in OwnedPaths(created)
    requires Managed(LEGACY_DIRECTORY) !in run.before && Managed(LEGACY_DIRECTORY) in nodes
    ensures orphan == Some(Managed(LEGACY_DIRECTORY))
  {
    assert SameAt(run.before, nodes, Managed(LEGACY_DIRECTORY)) ||
           MayTouch(plan, ToSet(OwnedPaths(created)), orphan, Managed(LEGACY_DIRECTORY));
  }

  /** All effects are in place; the legacy directory is as it was, gone, or made again. */
  ghost predicate FolderStep(store: Store, plan: Plan, run: Run, run': Run, copies: seq<Identity>, made: PreparedRun)
    reads store`nodes, store`nextIdentity, store`flags, store`trace, store`orphan
  {
    && Underway(store, plan, run', copies, Progress(|run.items|, |run.items|, Changed, Ready), made)
    && run'.items == run.items
    && (if run' == run then store.orphan == None
        else run' == Migrated(plan, run) &&
             (store.orphan == None ==> Managed(LEGACY_DIRECTORY) !in store.nodes) &&
             (store.orphan.Some? ==> store.orphan == Some(Managed(LEGACY_DIRECTORY))))
  }

  /** The legacy directory is there and nothing is left in it. */
  ghost predicate EmptyLegacy(nodes: Nodes) {
    FolderAt(nodes, LEGACY_DIRECTORY) && EmptyFolder(nodes, Managed(LEGACY_DIRECTORY))
  }

  method TakeFolderAway(store: Store, plan: Plan, made: PreparedRun, ghost run: Run, ghost copies: seq<Identity>)
    returns (ok: bool, ghost run': Run)
    requires Underway(store, plan, run, copies, Progress(|run.items|, |run.items|, Changed, Ready), made)
    requires store.orphan == None && WellFormedActivation(plan) && Migrates(plan)
    modifies store`nodes, store`trace
    ensures FolderStep(store, plan, run, run', copies, made) && store.orphan == None
    ensures if ok then run' == Migrated(plan, run) && Managed(LEGACY_DIRECTORY) !in store.nodes
            else run' == run && store.nodes == old(store.nodes)
    ensures ok ==> store.nodes == old(store.nodes) - {Managed(LEGACY_DIRECTORY)}
    ensures store.calm && EmptyLegacy(old(store.nodes)) ==> ok
  {
    hide EmptyFolder, Planted, TraceOk, Holds, WellFormedPlan;
    ghost var view := Progress(|run.items|, |run.items|, Changed, Ready);
    run' := run;
    ok := store.RemoveDirectory(Managed(LEGACY_DIRECTORY));
    FolderKeepsView(plan, run, copies, view, old(store.nodes), store.nodes, store.flags, old(store.trace));
    if ok {
      run' := Migrated(plan, run);
      MigratedIsSameRun(plan, run);
      SameRunTracking(store, run, run', copies, view);
      HoldingsWithoutFolder(plan, run, old(store.nodes), store.nodes, made.created, made.p.stages);
    }
  }

  /** A directory that is there afterwards counts as the run's orphan: the executor keeps no record of it. */
  method MakeLegacyFolder(store: Store, plan: Plan, ghost run: Run, ghost copies: seq<Identity>, ghost view: seq<Side>)
    requires Tracking(store, run, copies, view) && ItemsMatch(plan, run) && LEGACY_DIRECTORY !in EffectPaths(plan)
    modifies store`nodes, store`nextIdentity, store`trace, store`orphan
    ensures Tracking(store, run, copies, view)
    ensures store.nodes == old(store.nodes) ==> store.orphan == old(store.orphan)
    ensures store.nodes != old(store.nodes) ==>
      && store.orphan == Some(Managed(LEGACY_DIRECTORY)) && FolderAt(store.nodes, LEGACY_DIRECTORY)
      && store.nodes == old(store.nodes)[Managed(LEGACY_DIRECTORY) := store.nodes[Managed(LEGACY_DIRECTORY)]]
  {
    hide FoldersKept, NoNewRestore, MakesDirectory, TraceOk, Holds, Planted;
    var identity := store.MakeDirectory(Managed(LEGACY_DIRECTORY));
    FolderKeepsView(plan, run, copies, view, old(store.nodes), store.nodes, store.flags, old(store.trace));
    if store.nodes != old(store.nodes) {
      store.orphan := Some(Managed(LEGACY_DIRECTORY));
    }
  }

  /** The legacy directory is gone: try to make it again. */
  method MakeFolderAgain(store: Store, plan: Plan, made: PreparedRun, ghost run: Run, ghost run': Run, ghost copies: seq<Identity>)
    requires FolderStep(store, plan, run, run', copies, made) && run' != run && store.orphan == None
    requires WellFormedActivation(plan) && LEGACY_DIRECTORY !in OwnedPaths(made.created)
    requires LEGACY_DIRECTORY !in plan.body.stagePreconditions && Managed(LEGACY_DIRECTORY) !in run'.before
    modifies store`nodes, store`nextIdentity, store`trace, store`orphan
    ensures FolderStep(store, plan, run, run', copies, made)
  {
    hide Tracking, Confined;
    MakeLegacyFolder(store, plan, run', copies, Progress(|run.items|, |run.items|, Changed, Ready));
    if store.nodes != old(store.nodes) {
      HoldingsWithFolder(plan, run', old(store.nodes), store.nodes, made.created, made.p.stages,
                         store.nodes[Managed(LEGACY_DIRECTORY)]);
    }
  }

  /** Looks at the directory, removes it and runs the hook: the guarded part of the step. */
  method TryRemoveFolder(store: Store, plan: Plan, made: PreparedRun, ghost run: Run, ghost copies: seq<Identity>)
    returns (ok: bool, ghost run': Run)
    requires Underway(store, plan, run, copies, Progress(|run.items|, |run.items|, Changed, Ready), made)
    requires store.orphan == None && WellFormedActivation(plan) && Migrates(plan)
    requires FolderAt(run.before, LEGACY_DIRECTORY)
    modifies store`nodes, store`trace
    ensures FolderStep(store, plan, run, run', copies, made) && store.orphan == None
    ensures ok ==> run' == Migrated(plan, run) && Managed(LEGACY_DIRECTORY) !in store.nodes
    ensures run' == run && FolderAt(old(store.nodes), LEGACY_DIRECTORY) ==> Managed(LEGACY_DIRECTORY) in store.nodes
    ensures ok ==> store.nodes == old(store.nodes) - {Managed(LEGACY_DIRECTORY)}
    ensures store.calm && EmptyLegacy(old(store.nodes)) ==> ok
  {
    hide EmptyFolder, Planted;
    ok, run' := false, run;
    var seen := store.Inspect(Managed(LEGACY_DIRECTORY));
    if seen.Present? && seen.node.Folder? {
      ok, run' := TakeFolderAway(store, plan, made, run, copies);
      if ok {
        assert Managed(LEGACY_DIRECTORY) !in run'.before;
        ok := store.AfterOperation();
      }
    }
  }

  method RemoveLegacyFolder(store: Store, plan: Plan, made: PreparedRun, ghost run: Run, ghost copies: seq<Identity>)
    returns (ok: bool, ghost run': Run)
    requires Underway(store, plan, run, copies, Progress(|run.items|, |run.items|, Changed, Ready), made)
    requires store.orphan == None && WellFormedActivation(plan) && Migrates(plan)
    requires LEGACY_DIRECTORY !in OwnedPaths(made.created) && LEGACY_DIRECTORY !in plan.body.stagePreconditions
    requires FolderAt(store.nodes, LEGACY_DIRECTORY) && FolderAt(run.before, LEGACY_DIRECTORY)
    modifies store`nodes, store`nextIdentity, store`trace, store`orphan
    ensures FolderStep(store, plan, run, run', copies, made)
    ensures ok ==> run' == Migrated(plan, run) && store.orphan == None && Managed(LEGACY_DIRECTORY) !in store.nodes
    ensures ok ==> store.nodes == old(store.nodes) - {Managed(LEGACY_DIRECTORY)}
    ensures store.calm && EmptyLegacy(old(store.nodes)) ==> ok
  {
    hide EmptyLegacy, Planted;
    ok, run' := TryRemoveFolder(store, plan, made, run, copies);
    if !ok {
      var seen := store.Inspect(Managed(LEGACY_DIRECTORY));
      if seen.Absent? {
        MakeFolderAgain(store, plan, made, run, run', copies);
      }
    }
  }
}
