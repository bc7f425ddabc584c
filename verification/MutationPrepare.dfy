/**
 From a checked plan to filled stages, and the second look before anything is applied:
 the part the two executors share (packages/cli/src/init-mutation.ts:379-511,
 packages/cli/src/activation-mutation.ts:278-438).
 */
module MutationPrepare {
  import opened Foundations
  import opened MutationModel
  import opened MutationStore
  import opened MutationEvaluate
  import opened MutationPlan
  import opened MutationScope
  import opened MutationRun
  import opened MutationSteps
  import opened MutationCleanup
  import opened MutationPhases
  import opened MutationRecovery
  import opened MutationReports
  import opened MutationFinish
  import opened MutationRecheck

  // ---------------------------------------------------------------------
  // Observing the scope
  // ---------------------------------------------------------------------

  /** What an undisturbed observer records of every path. */
  function SeenAll(looks: Looks, nodes: Nodes, paths: seq<Path>, detailed: bool, listed: set<Path>): (entries: seq<PathObservation>)
    ensures |entries| == |paths|
    ensures forall i :: 0 <= i < |paths| ==> entries[i] == Seen(looks, nodes, paths[i], detailed, paths[i] in listed)
  {
    seq(|paths|, i requires 0 <= i < |paths| => Seen(looks, nodes, paths[i], detailed, paths[i] in listed))
  }

  method Capture(store: Store, paths: seq<Path>, detailed: bool, listed: set<Path>) returns (entries: seq<PathObservation>)
    ensures forall entry <- entries :: Truthful(store.nodes, entry)
    ensures store.calm ==> entries == SeenAll(store.looks, store.nodes, paths, detailed, listed)
  {
    hide Planted;
    entries := [];
    for i := 0 to |paths|
      invariant forall entry <- entries :: Truthful(store.nodes, entry)
      invariant store.calm ==> entries == SeenAll(store.looks, store.nodes, paths, detailed, listed)[..i]
    {
      var entry := store.Observe(paths[i], detailed, paths[i] in listed);
      entries := entries + [entry];
    }
  }

  method CaptureStages(store: Store, paths: seq<Path>) returns (entries: seq<StageObservation>)
    ensures forall entry <- entries :: entry.kind == Missing ==> Stage(entry.path) !in store.nodes
    ensures store.calm && (forall path <- paths :: Stage(path) !in store.nodes) ==> entries == MissingStages(paths)
  {
    hide Planted;
    entries := [];
    for i := 0 to |paths|
      invariant forall entry <- entries :: entry.kind == Missing ==> Stage(entry.path) !in store.nodes
      invariant store.calm && (forall path <- paths :: Stage(path) !in store.nodes) ==> entries == MissingStages(paths)[..i]
    {
      var entry := store.ObserveStage(paths[i]);
      entries := entries + [entry];
    }
  }

  predicate OnlyStages(plan: Plan, paths: seq<Path>) {
    forall path <- paths :: path in plan.body.stagePreconditions
  }


  // ---------------------------------------------------------------------
  // Prepare
  // ---------------------------------------------------------------------

  datatype Contents = Contents(list: seq<Content>) | Invalid(path: Path)

  /** Contents for every effect, or the first effect whose payload does not match the plan. */
  function ContentsFor(effects: seq<Effect>, contentFor: Effect -> Option<Content>): (r: Contents)
    ensures r.Contents? ==> |r.list| == |effects|
    ensures r.Contents? ==> forall i :: 0 <= i < |effects| ==> contentFor(effects[i]) == Some(r.list[i])
    ensures r.Invalid? ==>
      exists i :: 0 <= i < |effects| && effects[i].path == r.path && contentFor(effects[i]).None?
  {
    if effects == [] then Contents([])
    else
      var first := contentFor(effects[0]);
      if first.None? then Invalid(effects[0].path)
      else
        match ContentsFor(effects[1..], contentFor)
        case Invalid(path) =>
          assert exists i :: 0 <= i < |effects[1..]| && effects[1..][i].path == path && contentFor(effects[1..][i]).None?;
          Invalid(path)
        case Contents(list) => Contents([first.value] + list)
  }

  function RunFor(plan: Plan, contents: seq<Content>, masked: Mode, before: Nodes): Run
    requires |contents| == |plan.body.effects| == |plan.body.stagePreconditions|
  {
    Run(ItemsOf(plan, contents, masked), before)
  }

  /** The plan fits the tree the run starts from. */
  ghost predicate Fits(plan: Plan, run: Run) {
    && WellFormedPlan(plan) && ItemsMatch(plan, run) && WellLaidOut(run) && ExpectationsHold(plan, run)
    && PlanFits(plan, run.before) && Rooted(run.before)
  }

  function LastPath(paths: seq<Path>): Option<Path> {
    if paths == [] then None else Some(paths[|paths| - 1])
  }

  lemma LastPreparedNamed(plan: Plan, prepared: seq<Path>, stage: FailureStage, code: FailureCode)
    requires WellFormedPlan(plan) && prepared <= EffectPaths(plan)
    ensures FailureNamed(plan, Failure(stage, code, LastPath(prepared)))
  {
    if prepared != [] {
      var path := prepared[|prepared| - 1];
      assert path == EffectPaths(plan)[|prepared| - 1];
      EffectIsEvidence(plan, path);
    }
  }

  lemma InvalidIsEvidence(plan: Plan, path: Path)
    requires WellFormedPlan(plan) && exists i :: 0 <= i < |plan.body.effects| && plan.body.effects[i].path == path
    ensures path in AllowedEvidence(plan)
  {
    var i :| 0 <= i < |plan.body.effects| && plan.body.effects[i].path == path;
    assert EffectPaths(plan)[i] == path;
    EffectIsEvidence(plan, path);
  }

  lemma NothingMoved(run: Run, copies: seq<Identity>, view: seq<Side>, middle: Nodes, nodes: Nodes)
    requires Holds(run, middle, copies, view)
    requires forall j :: 0 <= j < |view| ==> view[j] == Idle || view[j] == Ready
    requires SameTargets(run, middle, nodes) && SurroundingsKept(run, nodes, None)
    ensures nodes == run.before
  {
    UntouchedTargets(run, middle, copies, view);
    TargetsTrans(run, run.before, middle, nodes);
    SameTree(run, nodes);
  }

  lemma FirstNamed(plan: Plan, paths: seq<Path>, stage: FailureStage, code: FailureCode)
    requires EvidenceList(plan, paths)
    ensures FailureNamed(plan, Failure(stage, code, if paths == [] then None else Some(paths[0])))
  {
    assert paths != [] ==> paths[0] in paths;
  }

  function FirstPath(paths: seq<Path>): Option<Path> {
    if paths == [] then None else Some(paths[0])
  }

  datatype PreparedRun = PreparedRun(p: PrepareState, created: seq<Owned>)

  ghost predicate ReadyToApply(store: Store, plan: Plan, run: Run, copies: seq<Identity>, ready: PreparedRun)
    reads store`nodes, store`nextIdentity, store`flags, store`trace, store`orphan
  {
    && Fits(plan, run) && |copies| == |run.items|
    && Tracking(store, run, copies, Progress(|run.items|, |run.items|, Ready, Idle))
    && ready.p.prepared == EffectPaths(plan) && OwnedPaths(ready.p.stages) == plan.body.stagePreconditions
    && OriginalsKnown(run, ready.p.originals, |run.items|)
    && Holdings(plan, run, store.nodes, ready.created, ready.p.stages, store.orphan)
    && store.orphan == None && MarkerUntouched(store.flags)
  }

  lemma StagesComplete(plan: Plan, run: Run, copies: seq<Identity>, copy: Option<Identity>, middle: Nodes, nodes: Nodes,
                       created: seq<Owned>, p: PrepareState)
    requires Holdings(plan, run, middle, created, [], None)
    requires PrepareLists(plan, run, copies, copy, middle, nodes, p) && |p.prepared| == |run.items|
    ensures p.prepared == EffectPaths(plan) && OwnedPaths(p.stages) == plan.body.stagePreconditions
    ensures Holdings(plan, run, nodes, created, p.stages, None)
  {
    assert EffectPaths(plan)[..|run.items|] == EffectPaths(plan);
    assert plan.body.stagePreconditions[..|run.items|] == plan.body.stagePreconditions;
    AllStagesAccounted(plan, nodes, p.stages);
    HoldingsAfterStages(plan, run, middle, nodes, created, p.stages, None);
  }

  lemma StartPreparing(plan: Plan, run: Run, copies: seq<Identity>, nodes: Nodes, copy: Option<Identity>)
    requires Fits(plan, run) && |copies| == |run.items| && copy == None
    requires forall path <- plan.body.stagePreconditions :: Stage(path) !in nodes
    ensures PrepareLists(plan, run, copies, copy, nodes, nodes, PrepareState([], [], {}))
    ensures IdleView(|copies|) == Progress(|run.items|, 0, Ready, Idle)
  {
    assert OwnedPaths([]) == plan.body.stagePreconditions[..0];
  }

  /** Preparation ended early: no destination was touched and everything made so far is accounted for. */
  ghost predicate Halted(store: Store, plan: Plan, run: Run, copies: seq<Identity>, made: PreparedRun)
    reads store`nodes, store`nextIdentity, store`flags, store`trace, store`orphan
  {
    var k := |made.p.prepared|;
    && ItemsMatch(plan, run) && |copies| == |run.items| && k < |run.items| && made.p.prepared == EffectPaths(plan)[..k]
    && Tracking(store, run, copies, Progress(|run.items|, k, Ready, Idle))
    && Holdings(plan, run, store.nodes, made.created, made.p.stages, store.orphan)
    && MarkerUntouched(store.flags)
  }

  method PrepareStages(store: Store, plan: Plan, contents: seq<Content>, preserveMode: bool, verify: bool,
                       created: seq<Owned>, ghost run: Run, ghost copies: seq<Identity>)
    returns (result: Preparation, made: PreparedRun, ghost copies': seq<Identity>)
    requires Fits(plan, run) && |contents| == |plan.body.effects| && |copies| == |run.items|
    requires run.items == ItemsOf(plan, contents, MaskedBits(store.umask, preserveMode))
    requires Tracking(store, run, copies, IdleView(|copies|))
    requires Holdings(plan, run, store.nodes, created, [], None)
    requires forall path <- plan.body.stagePreconditions :: Stage(path) !in store.nodes
    requires store.orphan == None && store.flags == Flags(None, false, false, false)
    modifies store`nodes, store`nextIdentity, store`trace, store`flags, store`orphan
    ensures result == Prepared ==> ReadyToApply(store, plan, run, copies', made)
    ensures result != Prepared ==> Halted(store, plan, run, copies', made)
    ensures result == Stale ==> verify && store.orphan == None
    ensures made.created == created
    ensures FoldersKept(old(store.nodes), store.nodes) && NoNewRestore(old(store.nodes), store.nodes) && OwnAll(store.nodes, OfStages, made.p.stages)
    ensures store.calm && Housing(run, old(store.nodes)) && OriginalsPlanned(plan, run, verify) ==> result == Prepared
  {
    hide FoldersKept, NoNewRestore, OwnAll, Housing, OriginalsPlanned, Planted;
    ghost var middle := store.nodes;
    StartPreparing(plan, run, copies, store.nodes, store.flags.copy);
    var p;
    result, p, copies' := PrepareItems(store, plan, contents, preserveMode, verify, run, copies);
    made := PreparedRun(p, created);
    if result == Prepared {
      StagesComplete(plan, run, copies', store.flags.copy, middle, store.nodes, created, p);
    } else {
      HoldingsAfterStages(plan, run, middle, store.nodes, created, p.stages, store.orphan);
    }
  }

  function NothingPrepared(created: seq<Owned>): PreparedRun {
    PreparedRun(PrepareState([], [], {}), created)
  }

  method MakeFolders(store: Store, plan: Plan, directories: seq<Path>, ghost run: Run, ghost copies: seq<Identity>)
    returns (ok: bool, created: seq<Owned>)
    requires Fits(plan, run) && |copies| == |run.items| && Tracking(store, run, copies, IdleView(|copies|))
    requires store.nodes == run.before && store.orphan == None && MarkerUntouched(store.flags)
    requires Distinct(directories) && forall path <- directories :: path !in EffectPaths(plan) && path in RunDirectories(plan)
    modifies store`nodes, store`nextIdentity, store`trace, store`orphan
    ensures Tracking(store, run, copies, IdleView(|copies|))
    ensures Holdings(plan, run, store.nodes, created, [], store.orphan)
    ensures ok ==> store.orphan == None
    ensures forall path <- plan.body.stagePreconditions :: Stage(path) !in store.nodes
    ensures !ok ==> Halted(store, plan, run, copies, NothingPrepared(created))
    ensures forall path <- OwnedPaths(created) :: path in directories
    ensures Reachable(plan, directories) ==> ParentFirst(OwnedPaths(created))
    ensures FoldersKept(run.before, store.nodes) && NoNewRestore(run.before, store.nodes) && OwnAll(store.nodes, OfDirectories, created)
    ensures store.calm && Reachable(plan, directories) ==> ok && Housing(run, store.nodes)
  {
    hide FoldersKept, NoNewRestore, OwnAll, Reachable, Housing, Built, ParentFirst, Planted;
    ok, created := CreateDirectories(store, plan, directories, run, copies);
    HoldingsAfterFolders(plan, run, store.nodes, created, store.orphan);
    assert forall path <- plan.body.stagePreconditions :: SameAt(run.before, store.nodes, Stage(path));
    assert IdleView(|copies|) == Progress(|run.items|, 0, Ready, Idle);
    if store.calm && Reachable(plan, directories) {
      HousingFromBuilt(plan, run, directories, store.nodes);
    }
  }

  lemma HousingFromBuilt(plan: Plan, run: Run, directories: seq<Path>, nodes: Nodes)
    requires Fits(plan, run) && Reachable(plan, directories) && FoldersKept(run.before, nodes)
    requires Built(plan, directories, nodes)
    ensures Housing(run, nodes)
  {
    hide FoldersKept, NoNewRestore, Built, Housed, ParentPresent, PlanFits, WellLaidOut, ExpectationsHold, Rooted, WellFormedPlan;
    forall i: nat | i < |run.items|
      ensures ParentPresent(nodes, Target(run, i)) && ParentPresent(nodes, Stage(run.items[i].stage))
    {
      assert EffectPaths(plan)[i] in EffectPaths(plan);
      HousePresent(plan, directories, run.before, nodes, run.items[i].path);
      HousePresent(plan, directories, run.before, nodes, run.items[i].stage);
    }
  }

  function NewestFor(run: Run, newest: Identity): (copies: seq<Identity>)
    ensures |copies| == |run.items|
    ensures forall i :: 0 <= i < |copies| ==> copies[i] == newest
  {
    seq(|run.items|, _ => newest)
  }

  /** Before anything is done, every effect is idle. */
  lemma NothingTaken(store: Store, run: Run)
    requires store.Valid() && WellLaidOut(run) && store.nodes == run.before && store.trace == []
    requires store.flags == Flags(None, false, false, false)
    ensures var copies := NewestFor(run, store.nextIdentity); Tracking(store, run, copies, IdleView(|copies|))
  {
    var copies := NewestFor(run, store.nextIdentity);
    forall i: nat | i < |run.items| ensures ItemIs(run, store.nodes, copies, i, IdleView(|copies|)[i]) {
    }
  }

  method PrepareRun(store: Store, plan: Plan, directories: seq<Path>, contents: seq<Content>,
                    preserveMode: bool, verify: bool, ghost run: Run, ghost copies: seq<Identity>)
    returns (result: Preparation, made: PreparedRun, ghost copies': seq<Identity>)
    requires Fits(plan, run) && |contents| == |plan.body.effects| && |copies| == |run.items|
    requires run.items == ItemsOf(plan, contents, MaskedBits(store.umask, preserveMode))
    requires Tracking(store, run, copies, IdleView(|copies|))
    requires store.nodes == run.before && store.orphan == None && store.flags == Flags(None, false, false, false)
    requires Distinct(directories) && forall path <- directories :: path !in EffectPaths(plan) && path in RunDirectories(plan)
    modifies store`nodes, store`nextIdentity, store`trace, store`flags, store`orphan
    ensures result == Prepared ==> ReadyToApply(store, plan, run, copies', made)
    ensures result != Prepared ==> Halted(store, plan, run, copies', made)
    ensures result == Stale ==> verify && store.orphan == None
    ensures forall path <- OwnedPaths(made.created) :: path in directories
    ensures Supplied(run, store.nodes, made)
    ensures store.calm && Reachable(plan, directories) && OriginalsPlanned(plan, run, verify) ==>
      result == Prepared && Housing(run, store.nodes)
    ensures Reachable(plan, directories) ==> ParentFirst(OwnedPaths(made.created))
  {
    hide ParentFirst, FoldersKept, NoNewRestore, OwnAll, Reachable, Housing, OriginalsPlanned, Planted;
    var ok, created := MakeFolders(store, plan, directories, run, copies);
    ghost var middle := store.nodes;
    NoStages(store.nodes);
    if ok {
      result, made, copies' := PrepareStages(store, plan, contents, preserveMode, verify, created, run, copies);
    } else {
      result, made, copies' := Threw, NothingPrepared(created), copies;
      FoldersSame(store.nodes);
    }
    ForwardTrans(run.before, middle, store.nodes);
    OwnAllKept(middle, store.nodes, OfDirectories, created);
    if Housing(run, middle) {
      HousingKept(run, middle, store.nodes);
    }
  }

  lemma NoStages(nodes: Nodes)
    ensures OwnAll(nodes, OfStages, [])
  {
  }

  /** Every directory of the initial tree is still there, and the run has what it made. */
  ghost predicate Stocked(run: Run, nodes: Nodes, made: PreparedRun) {
    && FoldersKept(run.before, nodes)
    && OwnAll(nodes, OfDirectories, made.created) && OwnAll(nodes, OfStages, made.p.stages)
  }

  /** Nothing has been laid out for restoring yet. */
  ghost predicate Supplied(run: Run, nodes: Nodes, made: PreparedRun) {
    Stocked(run, nodes, made) && NoNewRestore(run.before, nodes)
  }

  lemma StockedStays(run: Run, a: Nodes, b: Nodes, made: PreparedRun)
    requires Stocked(run, a, made) && FoldersKept(a, b)
    ensures Stocked(run, b, made)
  {
    hide FoldersKept, OwnAll;
    KeptTrans(run.before, a, b);
    OwnAllKept(a, b, OfDirectories, made.created);
    OwnAllKept(a, b, OfStages, made.p.stages);
  }

  lemma SuppliedStays(run: Run, a: Nodes, b: Nodes, made: PreparedRun)
    requires Supplied(run, a, made) && FoldersKept(a, b) && NoNewRestore(a, b)
    ensures Supplied(run, b, made)
  {
    hide FoldersKept, NoNewRestore, OwnAll;
    ForwardTrans(run.before, a, b);
    StockedStays(run, a, b, made);
  }

  /** The run's stages hold nothing but files. */
  lemma StockedStages(plan: Plan, run: Run, nodes: Nodes, made: PreparedRun)
    requires Stocked(run, nodes, made) && Rooted(run.before) && OwnedPaths(made.p.stages) == plan.body.stagePreconditions
    requires forall path <- plan.body.stagePreconditions :: Stage(path) !in run.before
    ensures OwnStages(nodes, made.p.stages)
  {
    forall k | 0 <= k < |made.p.stages| ensures OwnStage(nodes, made.p.stages[k]) {
      assert OwnedPaths(made.p.stages)[k] in plan.body.stagePreconditions;
      assert IsOwned(nodes, OfStages, made.p.stages[k]);
    }
  }

  /** With every destination as it was, a run can remove whatever it made. */
  lemma StockedIsClearable(plan: Plan, run: Run, nodes: Nodes, made: PreparedRun)
    requires Stocked(run, nodes, made) && Rooted(run.before) && OwnedPaths(made.p.stages) == plan.body.stagePreconditions
    requires forall path <- plan.body.stagePreconditions :: Stage(path) !in run.before
    requires AllInitial(run, nodes) && Planted(run.before) && ParentFirst(OwnedPaths(made.created))
    ensures Clearable(run, nodes, made.p.stages, made.created, None)
  {
    hide FoldersKept, OwnStages, Planted, ParentFirst, AllInitial, Rooted;
    StockedStages(plan, run, nodes, made);
  }

  /** Room for every copy to be laid out for restoring. */
  lemma SuppliedIsRestorable(plan: Plan, run: Run, nodes: Nodes, made: PreparedRun)
    requires Fits(plan, run) && Supplied(run, nodes, made) && Housing(run, nodes)
    requires OwnedPaths(made.p.stages) == plan.body.stagePreconditions
    ensures Restorable(run, nodes, |run.items|)
  {
    hide ParentPresent, FoldersKept, WellFormedPlan, WellLaidOut, ExpectationsHold;
    forall j | 0 <= j < |run.items| ensures MayRestoreCopy(nodes, run.items[j]) {
      assert ParentPresent(nodes, Target(run, j));
      assert OwnedPaths(made.p.stages)[j] == run.items[j].stage;
      assert IsOwned(nodes, OfStages, made.p.stages[j]);
      assert plan.body.stagePreconditions[j] in plan.body.stagePreconditions;
      assert InStage(run, j, Restore) !in run.before;
    }
  }

  /** An undisturbed second look finds nothing to object to. */
  predicate SecondLookFits(plan: Plan, looks: Looks, nodes: Nodes, scope: seq<Path>, detailed: bool, listed: set<Path>,
                           stillEmpty: PathObservation -> bool, created: seq<Owned>)
  {
    var normalized := Normalized(plan, SeenAll(looks, nodes, scope, detailed, listed), created, stillEmpty);
    FindMismatches(plan, Recorded(normalized, detailed), MissingStages(plan.body.stagePreconditions)) == []
  }

  method FindPreparedMismatches(store: Store, plan: Plan, scope: seq<Path>, detailed: bool, listed: set<Path>,
                                stillEmpty: PathObservation -> bool, made: PreparedRun,
                                ghost run: Run, ghost copies: seq<Identity>)
    returns (mismatches: seq<Path>)
    requires ReadyToApply(store, plan, run, copies, made)
    ensures EvidenceList(plan, mismatches)
    ensures store.calm && Supplied(run, store.nodes, made) &&
            SecondLookFits(plan, store.looks, store.nodes, scope, detailed, listed, stillEmpty, made.created) ==>
      mismatches == []
  {
    hide OwnAll, FoldersKept, NoNewRestore, FindMismatches, Planted;
    var entries := Capture(store, scope, detailed, listed);
    var directories := ChangedOwned(store, made.created, false);
    assert OwnedPaths(made.p.stages) == plan.body.stagePreconditions;
    var folders := ChangedOwned(store, made.p.stages, true);
    var normalized := Recorded(Normalized(plan, entries, made.created, stillEmpty), detailed);
    var recapture := FindMismatches(plan, normalized, MissingStages(plan.body.stagePreconditions));
    mismatches := PreparedMismatches(recapture, directories + folders);
    PreparedMismatchesAreEvidence(plan, run, normalized, made.created, made.p.stages, directories, folders);
  }

  // ---------------------------------------------------------------------
  // After preparation
  // ---------------------------------------------------------------------

  /** Effects have been attempted and the run owns its stages and directories. */
  ghost predicate Underway(store: Store, plan: Plan, run: Run, copies: seq<Identity>, view: seq<Side>, ready: PreparedRun)
    reads store`nodes, store`nextIdentity, store`flags, store`trace, store`orphan
  {
    && Tracking(store, run, copies, view) && |copies| == |run.items|
    && Holdings(plan, run, store.nodes, ready.created, ready.p.stages, store.orphan)
    && |ready.p.stages| == |run.items|
  }

  /** Applies every effect; the run keeps its stages and directories. */
  method ApplyPrepared(store: Store, plan: Plan, items: seq<Item>, made: PreparedRun,
                       ghost run: Run, ghost copies: seq<Identity>)
    returns (attempted: seq<Path>, applied: seq<Path>, failure: Option<Failure>, ghost reached: nat)
    requires ReadyToApply(store, plan, run, copies, made) && items == run.items
    modifies store`nodes, store`trace, store`interrupted
    ensures Underway(store, plan, run, copies, Progress(|items|, reached, Changed, Ready), made)
    ensures ApplyLists(plan, attempted, applied, reached) && attempted != []
    ensures failure.None? ==> attempted == applied == EffectPaths(plan) && reached == |items|
    ensures failure.Some? ==> failure.value.stage == Apply && FailureNamed(plan, failure.value)
    ensures FoldersKept(old(store.nodes), store.nodes) && NoNewRestore(old(store.nodes), store.nodes)
    ensures store.calm && Housing(run, old(store.nodes)) ==> (failure.Some? <==> store.interrupted)
  {
    hide FoldersKept, NoNewRestore, Housing, Planted, Tracking;
    attempted, applied, failure, reached := ApplyItems(store, plan, items, run, copies);
    HoldingsKept(plan, run, old(store.nodes), store.nodes, made.created, made.p.stages, store.orphan);
    if failure.Some? {
      LastPreparedNamed(plan, attempted, Apply, failure.value.code);
    }
  }

  /** Gives up before anything was applied; with nothing left behind, the tree is the initial one. */
  method AbandonPrepared(store: Store, plan: Plan, made: PreparedRun, ghost k: nat,
                         ghost run: Run, ghost copies: seq<Identity>)
    returns (residue: seq<Path>)
    requires |copies| == |run.items| && k <= |run.items|
    requires Tracking(store, run, copies, Progress(|run.items|, k, Ready, Idle))
    requires Holdings(plan, run, store.nodes, made.created, made.p.stages, store.orphan)
    modifies store`nodes, store`trace, store`flags
    ensures Cleaning(store, run) && AllInitial(run, store.nodes)
    ensures EvidenceList(plan, residue)
    ensures residue == [] ==> TreeRestored(run.before, store.nodes, store.orphan)
    ensures residue == [] && store.orphan == None ==> store.nodes == run.before
    ensures store.flags == old(store.flags).(settled := true)
    ensures store.calm && Clearable(run, old(store.nodes), made.p.stages, made.created, store.orphan) ==> residue == []
  {
    hide Clearable, Planted;
    ghost var view := Progress(|run.items|, k, Ready, Idle);
    residue := Abandon(store, plan, made.p.stages, made.created, run, copies, view);
    if residue == [] {
      RestoredTree(run, store.nodes, store.orphan);
      if store.orphan == None {
        NothingMoved(run, copies, view, old(store.nodes), store.nodes);
      }
    }
  }
}
