/** Ending a run: settle the tree, clean up what the run owns, report what is left. */
module MutationFinish {
  import opened Foundations
  import opened MutationModel
  import opened MutationStore
  import opened MutationEvaluate
  import opened MutationPlan
  import opened MutationScope
  import opened MutationRun
  import opened MutationSteps
  import opened MutationCleanup
  import opened MutationPhases
  import opened MutationRecovery
  import opened MutationReports

  /** The directories and stages a run has to its name, and its possible orphan. */
  ghost predicate Holdings(plan: Plan, run: Run, nodes: Nodes, created: seq<Owned>, stages: seq<Owned>, orphan: Option<Place>) {
    && WellFormedPlan(plan) && ItemsMatch(plan, run)
    && (forall path <- plan.body.stagePreconditions :: Stage(path) !in run.before) && Rooted(run.before)
    && |stages| <= |run.items| && OwnedPaths(stages) == plan.body.stagePreconditions[..|stages|]
    && Distinct(OwnedPaths(created)) && PlannedMissing(plan, run.before, created)
    && (forall path <- OwnedPaths(created) :: path !in EffectPaths(plan) && path in RunDirectories(plan))
    && Confined(plan, ToSet(OwnedPaths(created)), orphan, run.before, nodes)
    && StagesAccounted(plan, nodes, stages, orphan)
    && OrphanKnown(run.before, nodes, orphan)
    && (orphan.Some? ==> orphan.value.path !in OwnedPaths(stages) && orphan.value.path !in OwnedPaths(created))
  }

  lemma StagesBeyondConfined(plan: Plan, run: Run, stages: seq<Owned>, created: set<Path>, a: Nodes, b: Nodes)
    requires ItemsMatch(plan, run) && |stages| <= |run.items|
    requires OwnedPaths(stages) == plan.body.stagePreconditions[..|stages|]
    requires SameBeyondAll(OfStages, ToSet(OwnedPaths(stages)), a, b)
    ensures Confined(plan, created, None, a, b)
    ensures SameTargets(run, a, b)
  {
    forall place: Place ensures SameAt(a, b, place) || MayTouch(plan, created, None, place) {
      if OwnerPath(place) in OwnedPaths(stages) {
        assert OwnerPath(place) in plan.body.stagePreconditions;
      }
    }
  }

  lemma FoldersBeyondConfined(plan: Plan, run: Run, created: seq<Owned>, a: Nodes, b: Nodes)
    requires ItemsMatch(plan, run) && forall path <- OwnedPaths(created) :: path !in EffectPaths(plan)
    requires SameBeyondAll(OfDirectories, ToSet(OwnedPaths(created)), a, b)
    ensures Confined(plan, ToSet(OwnedPaths(created)), None, a, b)
    ensures SameTargets(run, a, b)
  {
    forall i: nat | i < |run.items| ensures SameAt(a, b, Target(run, i)) {
      assert EffectPaths(plan)[i] in EffectPaths(plan);
    }
  }

  /** A place that cleanup leaves alone stays as it was. */
  lemma Untouched(owner: Owner, owned: seq<Owned>, a: Nodes, b: Nodes, place: Place)
    requires SameBeyondAll(owner, ToSet(OwnedPaths(owned)), a, b)
    requires OwnerPath(place) !in OwnedPaths(owned) || place.Managed? != owner.OfDirectories?
    ensures SameAt(a, b, place)
  {
  }

  lemma CreatedAreEvidence(plan: Plan, run: Run, created: seq<Owned>, residue: seq<Path>)
    requires PlannedMissing(plan, run.before, created) && ToSet(residue) <= ToSet(OwnedPaths(created))
    ensures forall path <- residue :: path in PreconditionPaths(plan)
  {
    forall path | path in residue ensures path in PreconditionPaths(plan) {
      assert path in ToSet(residue);
      var entry :| entry in plan.body.preconditions && entry.path == path && entry.kind == Missing;
      var i :| 0 <= i < |plan.body.preconditions| && plan.body.preconditions[i] == entry;
      assert PreconditionPaths(plan)[i] == path;
    }
  }

  lemma StageCleanupKeeps(plan: Plan, run: Run, created: seq<Owned>, stages: seq<Owned>, orphan: Option<Place>,
                          a: Nodes, b: Nodes, residue: seq<Path>)
    requires Holdings(plan, run, a, created, stages, orphan)
    requires SameBeyondAll(OfStages, ToSet(OwnedPaths(stages)), a, b)
    requires forall path <- OwnedPaths(stages) :: path in residue || Stage(path) !in b
    ensures Holdings(plan, run, b, created, stages, orphan)
    ensures SameTargets(run, a, b)
    ensures residue == [] ==> StagesGone(plan, b, orphan)
  {
    StagesBeyondConfined(plan, run, stages, {}, a, b);
    ConfinedTrans2(plan, ToSet(OwnedPaths(created)), orphan, run.before, a, b);
    forall path | path in plan.body.stagePreconditions && Stage(path) in b
      ensures path in OwnedPaths(stages) || orphan == Some(Stage(path))
    {
      if path !in OwnedPaths(stages) {
        Untouched(OfStages, stages, a, b, Stage(path));
      }
    }
    if orphan.Some? {
      Untouched(OfStages, stages, a, b, orphan.value);
      forall slot | orphan.value.Stage? ensures Staged(orphan.value.path, slot) !in b {
        Untouched(OfStages, stages, a, b, Staged(orphan.value.path, slot));
      }
    }
  }

  lemma FolderCleanupKeeps(plan: Plan, run: Run, created: seq<Owned>, stages: seq<Owned>, orphan: Option<Place>,
                           a: Nodes, b: Nodes)
    requires Holdings(plan, run, a, created, stages, orphan)
    requires SameBeyondAll(OfDirectories, ToSet(OwnedPaths(created)), a, b)
    ensures Holdings(plan, run, b, created, stages, orphan)
    ensures SameTargets(run, a, b)
    ensures StagesGone(plan, a, orphan) ==> StagesGone(plan, b, orphan)
  {
    FoldersBeyondConfined(plan, run, created, a, b);
    ConfinedTrans2(plan, ToSet(OwnedPaths(created)), orphan, run.before, a, b);
    forall path ensures SameAt(a, b, Stage(path)) {
      Untouched(OfDirectories, created, a, b, Stage(path));
    }
    if orphan.Some? {
      Untouched(OfDirectories, created, a, b, orphan.value);
      forall slot | orphan.value.Stage? ensures Staged(orphan.value.path, slot) !in b {
        Untouched(OfDirectories, created, a, b, Staged(orphan.value.path, slot));
      }
    }
  }

  /** Cleanup stays within what the run may touch. */
  lemma ConfinedTrans2(plan: Plan, created: set<Path>, orphan: Option<Place>, a: Nodes, b: Nodes, c: Nodes)
    requires Confined(plan, created, orphan, a, b)
    requires Confined(plan, {}, None, b, c) || Confined(plan, created, None, b, c)
    ensures Confined(plan, created, orphan, a, c)
  {
    forall place: Place ensures SameAt(a, c, place) || MayTouch(plan, created, orphan, place) {
      if SameAt(a, b, place) && !SameAt(b, c, place) {
        assert MayTouch(plan, created, None, place);
      }
    }
  }

  /** Every destination is as it was, and nothing keeps the run from removing what it made. */
  ghost predicate Clearable(run: Run, nodes: Nodes, stages: seq<Owned>, created: seq<Owned>, orphan: Option<Place>) {
    && orphan == None && Planted(run.before) && AllInitial(run, nodes)
    && OwnStages(nodes, stages) && OwnAll(nodes, OfDirectories, created) && ParentFirst(OwnedPaths(created))
  }

  lemma NotBefore(run: Run, plan: Plan, created: seq<Owned>, k: nat, place: Place)
    requires k < |created| && PlannedMissing(plan, run.before, created) && Planted(run.before)
    requires created[k].path != "" && ParentOf(place) == Managed(created[k].path)
    ensures place !in run.before
  {
    assert OwnedPaths(created)[k] in OwnedPaths(created);
    assert Managed(created[k].path) !in run.before;
    forall other | other in run.before ensures ParentOf(other) != Managed(created[k].path) {
      assert ParentPresent(run.before, other);
    }
  }

  lemma NoEffectThere(plan: Plan, run: Run, nodes: Nodes, place: Place)
    requires ItemsMatch(plan, run) && AllInitial(run, nodes) && place.Managed? && place in nodes && place !in run.before
    ensures place.path !in EffectPaths(plan)
  {
    forall i | 0 <= i < |EffectPaths(plan)| ensures EffectPaths(plan)[i] != place.path {
      assert AtInitial(run, nodes, i);
    }
  }

  /** Once the stages are gone, a created directory holds nothing but directories created after it. */
  lemma FolderHoldsLater(plan: Plan, run: Run, nodes: Nodes, stages: seq<Owned>, created: seq<Owned>, k: nat, place: Place)
    returns (m: nat)
    requires Holdings(plan, run, nodes, created, stages, None) && StagesGone(plan, nodes, None)
    requires Planted(run.before) && AllInitial(run, nodes) && ParentFirst(OwnedPaths(created))
    requires k < |created| && place in nodes && ParentOf(place) == Managed(created[k].path)
    ensures k < m < |created| && place == Managed(created[m].path)
  {
    hide Planted, ParentPath, WellFormedPlan;
    assert OwnedPaths(created)[k] in OwnedPaths(created);
    NotBefore(run, plan, created, k, place);
    assert MayTouch(plan, ToSet(OwnedPaths(created)), None, place);
    NoEffectThere(plan, run, nodes, place);
    assert place.path in OwnedPaths(created);
    m :| 0 <= m < |OwnedPaths(created)| && OwnedPaths(created)[m] == place.path;
  }

  lemma FoldersAreOwn(plan: Plan, run: Run, nodes: Nodes, stages: seq<Owned>, created: seq<Owned>)
    requires Holdings(plan, run, nodes, created, stages, None) && StagesGone(plan, nodes, None)
    requires Planted(run.before) && AllInitial(run, nodes) && ParentFirst(OwnedPaths(created))
    requires OwnAll(nodes, OfDirectories, created)
    ensures OwnFolders(nodes, created)
  {
    hide Holdings, StagesGone, Planted, AllInitial, ParentFirst;
    forall k | 0 <= k < |created| ensures IsOwned(nodes, OfDirectories, created[k]) && OnlyLater(nodes, created, k) {
      forall place | place in nodes && ParentOf(place) == Managed(created[k].path) && place != Managed(created[k].path)
        ensures exists m :: k < m < |created| && place == Managed(created[m].path)
      {
        var m := FolderHoldsLater(plan, run, nodes, stages, created, k, place);
      }
    }
  }

  lemma ClearableAfterStages(plan: Plan, run: Run, a: Nodes, b: Nodes, stages: seq<Owned>, created: seq<Owned>, residue: seq<Path>)
    requires Clearable(run, a, stages, created, None) && residue == []
    requires Holdings(plan, run, b, created, stages, None) && SameTargets(run, a, b)
    requires SameBeyondAll(OfStages, ToSet(OwnedPaths(stages)), a, b) && StagesGone(plan, b, None)
    ensures OwnFolders(b, created)
  {
    hide Holdings, StagesGone, Planted, ParentFirst, OwnStages, OwnFolders, SameBeyondAll;
    SidesStay(run, a, b);
    forall k | 0 <= k < |created| ensures IsOwned(b, OfDirectories, created[k]) {
      Untouched(OfStages, stages, a, b, Managed(created[k].path));
    }
    FoldersAreOwn(plan, run, b, stages, created);
  }

  /** Stages first, then directories; the residue is what could not be removed. */
  method CleanupAll(store: Store, plan: Plan, stages: seq<Owned>, created: seq<Owned>, ghost run: Run)
    returns (residue: seq<Path>)
    requires Cleaning(store, run) && Holdings(plan, run, store.nodes, created, stages, store.orphan)
    modifies store`nodes, store`trace
    ensures Cleaning(store, run) && Holdings(plan, run, store.nodes, created, stages, store.orphan)
    ensures SameTargets(run, old(store.nodes), store.nodes)
    ensures EvidenceList(plan, residue)
    ensures residue == [] ==> StagesGone(plan, store.nodes, store.orphan) && FoldersGone(created, store.nodes)
    ensures store.calm && Clearable(run, old(store.nodes), stages, created, store.orphan) ==> residue == []
  {
    hide OwnStages, OwnFolders, ParentFirst, Planted;
    var stageResidue := CleanupOwned(store, OfStages, stages, run);
    ghost var between := store.nodes;
    StageCleanupKeeps(plan, run, created, stages, store.orphan, old(store.nodes), between, stageResidue);
    NoDirectoryIsTarget(plan, run, created);
    if store.calm && Clearable(run, old(store.nodes), stages, created, store.orphan) {
      ClearableAfterStages(plan, run, old(store.nodes), between, stages, created, stageResidue);
    }
    var directoryResidue := CleanupOwned(store, OfDirectories, created, run);
    FolderCleanupKeeps(plan, run, created, stages, store.orphan, between, store.nodes);
    residue := stageResidue + directoryResidue;
    CreatedAreEvidence(plan, run, created, directoryResidue);
    StageResidueKnown(plan, run, stages, stageResidue);
    ResidueIsEvidence(plan, stageResidue, directoryResidue);
  }

  lemma StageResidueKnown(plan: Plan, run: Run, stages: seq<Owned>, residue: seq<Path>)
    requires ItemsMatch(plan, run) && |stages| <= |run.items|
    requires OwnedPaths(stages) == plan.body.stagePreconditions[..|stages|]
    requires ToSet(residue) <= ToSet(OwnedPaths(stages))
    ensures forall path <- residue :: path in plan.body.stagePreconditions
  {
    forall path | path in residue ensures path in plan.body.stagePreconditions {
      assert path in ToSet(residue);
    }
  }

  lemma NoDirectoryIsTarget(plan: Plan, run: Run, created: seq<Owned>)
    requires ItemsMatch(plan, run) && forall path <- OwnedPaths(created) :: path !in EffectPaths(plan)
    ensures forall path <- OwnedPaths(created) :: NotTarget(run, OfDirectories, path)
  {
    forall path, i: nat | path in OwnedPaths(created) && i < |run.items| ensures run.items[i].path != path {
      assert EffectPaths(plan)[i] in EffectPaths(plan);
    }
  }

  // ---------------------------------------------------------------------
  // Settling
  // ---------------------------------------------------------------------

  ghost predicate Untaken(view: seq<Side>) {
    forall j :: 0 <= j < |view| ==> view[j] == Idle || view[j] == Ready || view[j] == Restored
  }

  ghost method SettleOnInitial(store: Store, run: Run, copies: seq<Identity>, view: seq<Side>)
    requires Tracking(store, run, copies, view) && Untaken(view)
    modifies store`flags
    ensures Cleaning(store, run) && AllInitial(run, store.nodes)
    ensures store.flags == old(store.flags).(settled := true)
  {
    hide Planted;
    SettleInitial(run, store.nodes, copies, view, store.flags);
    store.flags := store.flags.(settled := true);
  }

  ghost method SettleOnPlanned(store: Store, run: Run, copies: seq<Identity>, view: seq<Side>)
    requires Tracking(store, run, copies, view)
    requires forall j :: 0 <= j < |view| ==> view[j] == Changed
    modifies store`flags
    ensures Cleaning(store, run) && AllPlanned(run, store.nodes)
    ensures store.flags == old(store.flags).(settled := true)
  {
    hide Planted;
    SettlePlanned(run, store.nodes, copies, view, store.flags);
    store.flags := store.flags.(settled := true);
  }

  lemma UntouchedTargets(run: Run, nodes: Nodes, copies: seq<Identity>, view: seq<Side>)
    requires Holds(run, nodes, copies, view)
    requires forall j :: 0 <= j < |view| ==> view[j] == Idle || view[j] == Ready
    ensures SameTargets(run, run.before, nodes)
  {
    forall i: nat | i < |run.items| ensures SameAt(run.before, nodes, Target(run, i)) {
      assert ItemIs(run, nodes, copies, i, view[i]);
    }
  }

  lemma TargetsTrans(run: Run, a: Nodes, b: Nodes, c: Nodes)
    requires SameTargets(run, a, b) && SameTargets(run, b, c)
    ensures SameTargets(run, a, c)
  {
    forall i: nat | i < |run.items| ensures SameAt(a, c, Target(run, i)) {
      assert SameAt(a, b, Target(run, i)) && SameAt(b, c, Target(run, i));
    }
  }

  /** Gives up: every destination is back (or was never touched), and what the run made is removed. */
  method Abandon(store: Store, plan: Plan, stages: seq<Owned>, created: seq<Owned>,
                 ghost run: Run, ghost copies: seq<Identity>, ghost view: seq<Side>)
    returns (residue: seq<Path>)
    requires Tracking(store, run, copies, view) && Untaken(view)
    requires Holdings(plan, run, store.nodes, created, stages, store.orphan)
    modifies store`nodes, store`trace, store`flags
    ensures Cleaning(store, run) && AllInitial(run, store.nodes)
    ensures EvidenceList(plan, residue)
    ensures SameTargets(run, old(store.nodes), store.nodes)
    ensures OrphanKnown(run.before, store.nodes, store.orphan)
    ensures store.flags == old(store.flags).(settled := true)
    ensures residue == [] ==> SurroundingsKept(run, store.nodes, store.orphan)
    ensures store.calm && Clearable(run, old(store.nodes), stages, created, store.orphan) ==> residue == []
  {
    hide Clearable, Planted;
    SettleOnInitial(store, run, copies, view);
    residue := CleanupAll(store, plan, stages, created, run);
    SidesStay(run, old(store.nodes), store.nodes);
    if residue == [] {
      CleanedTreeKeepsSurroundings(plan, run, created, store.orphan, store.nodes);
    }
  }

  /** The planned tree: only planned paths and missing directories differ, and every private stage is gone. */
  ghost predicate TreeCommitted(plan: Plan, run: Run, nodes: Nodes) {
    && AllPlanned(run, nodes)
    && (forall place: Place :: !place.Managed? ==> SameAt(run.before, nodes, place))
    && (forall path: Path :: path !in PreconditionPaths(plan) ==> SameAt(run.before, nodes, Managed(path)))
    && (forall path: Path :: path !in EffectPaths(plan) && Managed(path) in run.before ==>
          SameAt(run.before, nodes, Managed(path)))
    && (forall path: Path :: path !in EffectPaths(plan) && Managed(path) in nodes && Managed(path) !in run.before ==>
          path in RunDirectories(plan))
  }

  lemma CommittedTree(plan: Plan, run: Run, created: seq<Owned>, stages: seq<Owned>, nodes: Nodes)
    requires Holdings(plan, run, nodes, created, stages, None) && Rooted(nodes)
    requires AllPlanned(run, nodes) && StagesGone(plan, nodes, None)
    ensures TreeCommitted(plan, run, nodes)
  {
    forall place: Place | !place.Managed? ensures SameAt(run.before, nodes, place) {
      assert SameAt(run.before, nodes, place) || OwnerPath(place) in plan.body.stagePreconditions;
    }
    forall path | path !in EffectPaths(plan) && Managed(path) in nodes && Managed(path) !in run.before
      ensures path in RunDirectories(plan)
    {
      assert MayTouch(plan, ToSet(OwnedPaths(created)), None, Managed(path));
    }
    EffectsAndFoldersListed(plan, run, created);
  }

  lemma EffectsAndFoldersListed(plan: Plan, run: Run, created: seq<Owned>)
    requires WellFormedPlan(plan) && PlannedMissing(plan, run.before, created)
    ensures forall path <- EffectPaths(plan) :: path in PreconditionPaths(plan)
    ensures forall path <- OwnedPaths(created) :: path in PreconditionPaths(plan)
  {
    forall path | path in EffectPaths(plan) ensures path in PreconditionPaths(plan) {
      var entry :| entry in plan.body.preconditions && entry.path == path && (entry.kind == File || entry.kind == Missing);
      ListedPath(plan.body.preconditions, entry);
    }
    forall path | path in OwnedPaths(created) ensures path in PreconditionPaths(plan) {
      var entry :| entry in plan.body.preconditions && entry.path == path && entry.kind == Missing;
      ListedPath(plan.body.preconditions, entry);
    }
  }

  lemma ListedPath(entries: seq<PathObservation>, entry: PathObservation)
    requires entry in entries
    ensures entry.path in ObservedPaths(entries)
  {
    var i :| 0 <= i < |entries| && entries[i] == entry;
    assert ObservedPaths(entries)[i] == entry.path;
  }

  /** Every effect is in place: remove the stages and keep the created directories. */
  method Complete(store: Store, plan: Plan, stages: seq<Owned>, ghost created: seq<Owned>,
                  ghost run: Run, ghost copies: seq<Identity>, ghost view: seq<Side>)
    returns (residue: seq<Path>)
    requires Tracking(store, run, copies, view) && forall j :: 0 <= j < |view| ==> view[j] == Changed
    requires Holdings(plan, run, store.nodes, created, stages, store.orphan) && store.orphan == None
    modifies store`nodes, store`trace, store`flags
    ensures Cleaning(store, run) && AllPlanned(run, store.nodes)
    ensures Distinct(residue) && forall path <- residue :: path in plan.body.stagePreconditions
    ensures residue == [] ==> TreeCommitted(plan, run, store.nodes)
    ensures store.flags == old(store.flags).(settled := true)
    ensures forall path :: SameAt(old(store.nodes), store.nodes, Managed(path))
    ensures store.calm && OwnStages(old(store.nodes), stages) ==> residue == []
  {
    hide OwnStages, OwnFolders, Planted;
    SettleOnPlanned(store, run, copies, view);
    residue := CleanupOwned(store, OfStages, stages, run);
    StageCleanupKeeps(plan, run, created, stages, None, old(store.nodes), store.nodes, residue);
    SidesStay(run, old(store.nodes), store.nodes);
    StageResidueKnown(plan, run, stages, residue);
    if residue == [] {
      CommittedTree(plan, run, created, stages, store.nodes);
    }
  }

  // ---------------------------------------------------------------------
  // Holdings along a run
  // ---------------------------------------------------------------------

  lemma HoldingsAfterFolders(plan: Plan, run: Run, nodes: Nodes, created: seq<Owned>, orphan: Option<Place>)
    requires WellFormedPlan(plan) && ItemsMatch(plan, run) && Rooted(run.before)
    requires forall path <- plan.body.stagePreconditions :: Stage(path) !in run.before
    requires SameButFolders(OwnedPaths(created), orphan, run.before, nodes)
    requires Distinct(OwnedPaths(created)) && PlannedMissing(plan, run.before, created)
    requires forall path <- OwnedPaths(created) :: path !in EffectPaths(plan) && path in RunDirectories(plan)
    requires orphan.Some? ==>
      && orphan.value !in run.before && orphan.value in nodes && nodes[orphan.value].Folder?
      && orphan.value.Managed? && orphan.value.path !in OwnedPaths(created)
    ensures Holdings(plan, run, nodes, created, [], orphan)
  {
    FoldersConfined(plan, OwnedPaths(created), orphan, run.before, nodes);
    assert OwnedPaths([]) == plan.body.stagePreconditions[..0];
    forall path | path in plan.body.stagePreconditions ensures Stage(path) !in nodes {
      assert SameAt(run.before, nodes, Stage(path));
    }
  }

  lemma HoldingsAfterStages(plan: Plan, run: Run, middle: Nodes, nodes: Nodes, created: seq<Owned>,
                            stages: seq<Owned>, orphan: Option<Place>)
    requires Holdings(plan, run, middle, created, [], None)
    requires |stages| <= |run.items| && OwnedPaths(stages) == plan.body.stagePreconditions[..|stages|]
    requires Confined(plan, {}, orphan, middle, nodes)
    requires StagesAccounted(plan, nodes, stages, orphan) && OrphanIsStage(plan, nodes, stages, orphan)
    ensures Holdings(plan, run, nodes, created, stages, orphan)
  {
    forall place: Place
      ensures SameAt(run.before, nodes, place) || MayTouch(plan, ToSet(OwnedPaths(created)), orphan, place)
    {
      if SameAt(run.before, middle, place) && !SameAt(middle, nodes, place) {
        assert MayTouch(plan, {}, orphan, place);
      }
    }
    EffectsAndFoldersListed(plan, run, created);
  }

  lemma AllStagesAccounted(plan: Plan, nodes: Nodes, stages: seq<Owned>)
    requires OwnedPaths(stages) == plan.body.stagePreconditions
    ensures StagesAccounted(plan, nodes, stages, None) && OrphanIsStage(plan, nodes, stages, None)
  {
  }

  /** With every stage owned, applying and recovering keep the holdings. */
  lemma HoldingsKept(plan: Plan, run: Run, a: Nodes, b: Nodes, created: seq<Owned>, stages: seq<Owned>, orphan: Option<Place>)
    requires Holdings(plan, run, a, created, stages, orphan) && |stages| == |run.items|
    requires Confined(plan, {}, None, a, b)
    requires orphan.Some? ==> orphan.value.Managed? && orphan.value.path !in EffectPaths(plan)
    ensures Holdings(plan, run, b, created, stages, orphan)
  {
    ConfinedTrans2(plan, ToSet(OwnedPaths(created)), orphan, run.before, a, b);
    assert plan.body.stagePreconditions[..|stages|] == plan.body.stagePreconditions;
    if orphan.Some? {
      assert SameAt(a, b, orphan.value) || MayTouch(plan, {}, None, orphan.value);
    }
  }
}
