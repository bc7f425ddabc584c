/**
 `executeInitMutation` (packages/cli/src/init-mutation.ts:292-646): check, prepare,
 look again, apply in plan order with the commit marker last, and on any failure or
 interruption restore in reverse. The method's contract is what Core's evaluator may
 conclude from the report about the tree that is left behind.
 */
module InitMutation {
  import opened Foundations
  import opened MutationModel
  import opened MutationStore
  import opened MutationEvaluate
  import opened MutationPlan
  import opened MutationScope
  import opened MutationRun
  import opened MutationSteps
  import opened MutationCleanup
  import opened MutationPhases
  import opened MutationRecovery
  import opened MutationReports
  import opened MutationFinish
  import opened MutationLoss
  import opened MutationPrepare
  import opened MutationCurrent
  import opened InitPlan
  import opened InitRecovery
  import opened MutationVerdict
  import opened MutationStop

  datatype Payload = Payload(bytes: Bytes, mode: Mode)

  /** 0o666 */
  const MARKER_MODE: Mode := {1, 2, 4, 5, 7, 8}

  // ---------------------------------------------------------------------
  // Contents
  // ---------------------------------------------------------------------

  function ContentFor(effect: Effect, marker: Bytes, payloads: map<Path, Payload>): Option<Content> {
    if effect.kind.Remove? then
      if effect.digest == Sha256("") then Some(Content("", {})) else None
    else if effect.path == ADOPTION_MARKER then
      if effect.digest == Sha256(marker) then Some(Content(marker, MARKER_MODE)) else None
    else if effect.path in payloads && Sha256(payloads[effect.path].bytes) == effect.digest &&
            ValidMode(payloads[effect.path].mode) then
      Some(Content(payloads[effect.path].bytes, payloads[effect.path].mode))
    else None
  }

  // ---------------------------------------------------------------------
  // Apply or recover
  // ---------------------------------------------------------------------

  lemma AllRestored(plan: Plan, run: Run, view: seq<Side>, attempted: seq<Path>, r: RecoveryState, flags: Flags)
    requires view != [] && RecoveryFacts(plan, run, view, attempted, 0, r, flags) && r.unrecovered == []
    ensures Untaken(view) && NotInvalidated(r, flags.stuck) && MarkerUntouched(flags)
  {
    forall j | 0 <= j < |attempted| ensures view[j] == Restored {
      assert attempted[j] in ToSet(attempted[0..]);
      assert attempted[j] in ToSet(r.restored) + ToSet(r.unrecovered);
    }
  }

  lemma ReportedRecovery(plan: Plan, run: Run, view: seq<Side>, attempted: seq<Path>, applied: seq<Path>,
                         reached: nat, r: RecoveryState, flags: Flags)
    requires view != [] && RecoveryFacts(plan, run, view, attempted, 0, r, flags)
    requires ApplyLists(plan, attempted, applied, reached) && attempted != []
    ensures RecoveryReport(plan, attempted, applied, r)
  {
  }

  method FinishRecovered(store: Store, plan: Plan, made: PreparedRun, attempted: seq<Path>, applied: seq<Path>,
                         r: RecoveryState, applyFailure: Failure,
                         ghost run: Run, ghost copies: seq<Identity>, ghost view: seq<Side>)
    returns (o: Observation)
    requires Underway(store, plan, run, copies, view, made) && Untaken(view) && plan.body.operation.Init?
    requires RecoveryReport(plan, attempted, applied, r) && r.unrecovered == []
    requires LossHandled(plan, r, []) && FailureNamed(plan, applyFailure) && applyFailure.stage == Apply
    requires MarkerUntouched(store.flags)
    modifies store`nodes, store`trace, store`flags
    ensures Delivered(store, plan, run, o)
    ensures store.calm && Clearable(run, old(store.nodes), made.p.stages, made.created, store.orphan) ==>
      Evaluate(plan, o) == ApplyFailedRecovered
  {
    hide Clearable, Planted;
    var residue := Abandon(store, plan, made.p.stages, made.created, run, copies, view);
    var failure := if residue == [] then applyFailure
                   else Failure(Recovery, RecoveryCleanupFailed, FirstPath(residue));
    FirstNamed(plan, residue, Recovery, RecoveryCleanupFailed);
    if residue == [] {
      RestoredTree(run, store.nodes, store.orphan);
    }
    o := Recovered(plan, attempted, applied, r, [], residue, failure);
    RecoveryVerdict(plan, run, store.nodes, store.orphan, store.flags.copy, attempted, applied, r, residue, failure);
  }

  method FinishLost(store: Store, plan: Plan, attempted: seq<Path>, applied: seq<Path>, r: RecoveryState,
                    ghost run: Run, ghost copies: seq<Identity>, ghost view: seq<Side>)
    returns (o: Observation)
    requires Tracking(store, run, copies, view) && |copies| == |run.items|
    requires RecoveryFacts(plan, run, view, attempted, 0, r, store.flags)
    requires RecoveryReport(plan, attempted, applied, r) && r.unrecovered != [] && plan.body.operation.Init?
    modifies store`nodes, store`trace, store`flags
    ensures Delivered(store, plan, run, o)
  {
    hide Planted;
    hide VerdictHolds, Evaluate, TraceOk, MarkerKnown, Holds, RecoveryFacts, ValidInitObservation, ValidActivationObservation;
    var r';
    ghost var view';
    r', view' := InvalidateIfUnrecovered(store, plan, r, run, copies, view, attempted);
    o := LossReport(plan, attempted, applied, r');
    LossIsValid(plan, attempted, applied, r');
    LossFromView(plan, run, store.nodes, copies, view', store.flags, o);
    LossVerdict(plan, run, store.nodes, store.orphan, store.flags.copy, o);
  }

  method FinishRecovery(store: Store, plan: Plan, made: PreparedRun, attempted: seq<Path>, applied: seq<Path>,
                        r: RecoveryState, applyFailure: Failure,
                        ghost run: Run, ghost copies: seq<Identity>, ghost view: seq<Side>)
    returns (o: Observation)
    requires Underway(store, plan, run, copies, view, made) && plan.body.operation.Init?
    requires RecoveryFacts(plan, run, view, attempted, 0, r, store.flags) && RecoveryReport(plan, attempted, applied, r)
    requires FailureNamed(plan, applyFailure) && applyFailure.stage == Apply
    modifies store`nodes, store`trace, store`flags
    ensures Delivered(store, plan, run, o)
    ensures store.calm && r.unrecovered == [] && CanStillRemove(run, old(store.nodes), made, store.orphan) ==>
      Evaluate(plan, o) == ApplyFailedRecovered
  {
    hide CanStillRemove, Delivered, Planted;
    if r.unrecovered != [] {
      o := FinishLost(store, plan, attempted, applied, r, run, copies, view);
    } else {
      AllRestored(plan, run, view, attempted, r, store.flags);
      if CanStillRemove(run, store.nodes, made, store.orphan) {
        RestoredIsClearable(store, plan, run, copies, view, made);
      }
      o := FinishRecovered(store, plan, made, attempted, applied, r, applyFailure, run, copies, view);
    }
  }

  method RecoverRun(store: Store, plan: Plan, items: seq<Item>, made: PreparedRun,
                    attempted: seq<Path>, applied: seq<Path>, applyFailure: Failure,
                    ghost run: Run, ghost copies: seq<Identity>, ghost reached: nat)
    returns (o: Observation)
    requires items == run.items && plan.body.operation.Init?
    requires Underway(store, plan, run, copies, Progress(|items|, reached, Changed, Ready), made)
    requires store.orphan == None && ApplyLists(plan, attempted, applied, reached) && attempted != []
    requires MarkerUntouched(store.flags)
    requires OriginalsKnown(run, made.p.originals, |items|)
    requires FailureNamed(plan, applyFailure) && applyFailure.stage == Apply
    modifies store`nodes, store`nextIdentity, store`trace, store`flags
    ensures Delivered(store, plan, run, o)
    ensures store.calm && CanStillRemove(run, old(store.nodes), made, store.orphan) &&
            Restorable(run, old(store.nodes), |items|) ==>
      Evaluate(plan, o) == ApplyFailedRecovered
  {
    hide CanStillRemove, FoldersKept, Restorable, Delivered, Planted;
    var r;
    ghost var view;
    r, view := RecoverItems(store, plan, items, made.p.originals, attempted, run, copies, reached);
    if r.unrecovered == [] && FoldersKept(old(store.nodes), store.nodes) && CanStillRemove(run, old(store.nodes), made, store.orphan) {
      CanRemoveLater(run, old(store.nodes), store.nodes, made, store.orphan);
    }
    HoldingsKept(plan, run, old(store.nodes), store.nodes, made.created, made.p.stages, store.orphan);
    ReportedRecovery(plan, run, view, attempted, applied, reached, r, store.flags);
    o := FinishRecovery(store, plan, made, attempted, applied, r, applyFailure, run, copies, view);
  }

  method FinishCommitted(store: Store, plan: Plan, made: PreparedRun, ghost run: Run, ghost copies: seq<Identity>)
    returns (o: Observation)
    requires Underway(store, plan, run, copies, Progress(|run.items|, |run.items|, Changed, Ready), made)
    requires store.orphan == None && plan.body.operation.Init? && MarkerUntouched(store.flags)
    modifies store`nodes, store`trace, store`flags
    ensures Delivered(store, plan, run, o)
    ensures store.calm && OwnStages(old(store.nodes), made.p.stages) ==> Evaluate(plan, o) == Applied
  {
    hide OwnStages, Planted;
    var residue := Complete(store, plan, made.p.stages, made.created, run, copies,
                            Progress(|run.items|, |run.items|, Changed, Ready));
    o := Commit(plan, residue);
    CommitVerdict(plan, run, store.nodes, store.orphan, store.flags.copy, residue);
  }

  method ApplyRun(store: Store, plan: Plan, items: seq<Item>, made: PreparedRun,
                  ghost run: Run, ghost copies: seq<Identity>)
    returns (o: Observation)
    requires ReadyToApply(store, plan, run, copies, made) && items == run.items && plan.body.operation.Init?
    modifies store`nodes, store`nextIdentity, store`trace, store`flags, store`interrupted
    ensures Delivered(store, plan, run, o)
    ensures store.calm && CanRemove(run, old(store.nodes), made) && Housing(run, old(store.nodes)) ==>
      Evaluate(plan, o) == if store.interrupted then ApplyFailedRecovered else Applied
  {
    hide Supplied, CanStillRemove, Restorable, FoldersKept, NoNewRestore, Housing, OwnStages, Delivered, Planted, ParentFirst;
    var attempted, applied, failure;
    ghost var reached;
    attempted, applied, failure, reached := ApplyPrepared(store, plan, items, made, run, copies);
    if CanRemove(run, old(store.nodes), made) && Housing(run, old(store.nodes)) {
      AppliedCanBeUndone(plan, run, old(store.nodes), store.nodes, made);
    }
    if failure.Some? {
      o := RecoverRun(store, plan, items, made, attempted, applied, failure.value, run, copies, reached);
    } else {
      o := FinishCommitted(store, plan, made, run, copies);
    }
  }

  // ---------------------------------------------------------------------
  // The whole run
  // ---------------------------------------------------------------------

  /** The tree is the one the plan was made for, in the eyes of an undisturbed observer. */
  ghost predicate UpToDate(plan: Plan, mode: InitMode, looks: Looks, nodes: Nodes) {
    Current(plan, looks, nodes, Directories(mode) + Destinations(mode), false, {})
  }

  lemma PreparedIsCurrent(store: Store, plan: Plan, mode: InitMode, run: Run, copies: seq<Identity>, made: PreparedRun)
    requires ReadyToApply(store, plan, run, copies, made) && Supplied(run, store.nodes, made)
    requires UpToDate(plan, mode, store.looks, run.before)
    ensures SecondLookFits(plan, store.looks, store.nodes, Directories(mode) + Destinations(mode), false, {}, _ => true, made.created)
  {
    hide Holds, TraceOk, Supplied, Current, OnlyCreated, SecondLookFits;
    ManagedPathsDiffer(mode);
    PreparedOnlyCreated(plan, run, copies, store.nodes, made, {});
    SecondLook(plan, store.looks, run.before, store.nodes, Directories(mode) + Destinations(mode), false, {}, _ => true, made.created);
  }

  method RunPlan(store: Store, plan: Plan, mode: InitMode, contents: seq<Content>, ghost run: Run)
    returns (o: Observation)
    requires Fits(plan, run) && |contents| == |plan.body.effects| && plan.body.operation.Init?
    requires run == RunFor(plan, contents, MaskedBits(store.umask, false), store.nodes)
    requires store.Valid() && store.trace == [] && store.orphan == None
    requires store.flags == Flags(None, false, false, false)
    requires Distinct(Directories(mode)) && forall path <- Directories(mode) :: path !in EffectPaths(plan)
    requires plan.body.operation.mode == mode
    modifies store
    ensures Delivered(store, plan, run, o)
    ensures store.calm && Reachable(plan, Directories(mode)) && Planted(run.before) &&
            UpToDate(plan, mode, store.looks, run.before) ==>
      store.orphan == None && Evaluate(plan, o) == if store.interrupted then ApplyFailedRecovered else Applied
  {
    hide Supplied, Housing, Reachable, UpToDate, SecondLookFits, Delivered, Planted, ParentFirst, Tracking, Holdings, Halted;
    ghost var copies := NewestFor(run, store.nextIdentity);
    NothingTaken(store, run);
    var result, made;
    NothingCompared(plan, run);
    result, made, copies := PrepareRun(store, plan, Directories(mode), contents, false, false, run, copies);
    if result != Prepared {
      o := StopPreparing(store, plan, made, run, copies);
    } else {
      var scope := Directories(mode) + Destinations(mode);
      if UpToDate(plan, mode, store.looks, run.before) {
        PreparedIsCurrent(store, plan, mode, run, copies, made);
      }
      var stop := LookAgain(store, plan, scope, false, {}, _ => true, made, run, copies);
      if stop.Some? {
        o := stop.value;
      } else {
        var items := ItemsOf(plan, contents, MaskedBits(store.umask, false));
        o := ApplyRun(store, plan, items, made, run, copies);
      }
    }
  }

  /**
   Without failures a run is refused when the tree is not the one the plan was made for; otherwise
   it is undone completely when it was interrupted, and applied completely when it was not.
   No directory is left behind unreported.
   */
  ghost predicate Decided(store: Store, plan: Plan, before: Nodes, o: Observation)
    requires plan.body.operation.Init?
    reads store`interrupted, store`orphan
  {
    var mode := plan.body.operation.mode;
    store.calm && Reachable(plan, Directories(mode)) ==>
      store.orphan == None && Evaluate(plan, o) ==
        if !UpToDate(plan, mode, store.looks, before) then OperationRefused
        else if store.interrupted then ApplyFailedRecovered
        else Applied
  }

  method CheckAndRun(store: Store, plan: Plan, mode: InitMode, contents: seq<Content>)
    returns (o: Observation)
    requires store.Valid() && WellFormedPlan(plan) && |contents| == |plan.body.effects| && plan.body.operation.Init?
    requires store.trace == [] && store.orphan == None && store.flags == Flags(None, false, false, false)
    requires plan.body.operation.mode == mode
    requires forall path <- Directories(mode) :: path !in EffectPaths(plan)
    modifies store
    ensures Delivered(store, plan, RunFor(plan, contents, MaskedBits(store.umask, false), old(store.nodes)), o)
    ensures Decided(store, plan, old(store.nodes), o)
  {
    hide Delivered, Reachable, Current, Fits, Planted, Directories, Destinations;
    ManagedPathsDiffer(mode);
    ghost var masked := MaskedBits(store.umask, false);
    ghost var run := RunFor(plan, contents, MaskedBits(store.umask, false), store.nodes);
    var stop := CheckPlan(store, plan, Directories(mode) + Destinations(mode), false, {}, contents, masked, run);
    if stop.Some? {
      o := stop.value;
    } else {
      DistinctParts(Directories(mode), Destinations(mode));
      o := RunPlan(store, plan, mode, contents, run);
    }
  }

  /** Contents for every effect, or the first whose payload does not match the plan. */
  function ContentsOf(plan: Plan, snapshot: InitSnapshot, payloads: map<Path, Payload>): (r: Contents)
    ensures r.Contents? ==> |r.list| == |plan.body.effects|
    ensures r.Invalid? ==> exists i :: 0 <= i < |plan.body.effects| && plan.body.effects[i].path == r.path
  {
    ContentsFor(plan.body.effects, effect => ContentFor(effect, AdoptionMarker(snapshot), payloads))
  }

  /**
   Whatever fails and whenever the run is interrupted: the report is one that Core accepts,
   Core's verdict on it is true of the tree left behind, and no state on the way broke the promise.
   */
  method ExecuteInitMutation(store: Store, observedRoot: Option<Identity>, plan: Plan, snapshot: InitSnapshot,
                             payloads: map<Path, Payload>)
    returns (o: Observation)
    requires store.Valid() && WellFormedPlan(plan) && plan.body.operation.Init?
    requires forall path <- Directories(plan.body.operation.mode) :: path !in EffectPaths(plan)
    modifies store
    ensures observedRoot != Some(plan.body.rootIdentity) ==> Evaluate(plan, o) == OperationRefused
    ensures match ContentsOf(plan, snapshot, payloads)
      case Invalid(_) => Evaluate(plan, o) == OperationRefused && store.nodes == old(store.nodes)
      case Contents(contents) =>
        && Delivered(store, plan, RunFor(plan, contents, MaskedBits(store.umask, false), old(store.nodes)), o)
        && (observedRoot == Some(plan.body.rootIdentity) ==> Decided(store, plan, old(store.nodes), o))
  {
    hide Decided, Delivered, ContentsOf, Planted;
    store.trace, store.orphan, store.flags := [], None, Flags(None, false, false, false);
    var contents := ContentsOf(plan, snapshot, payloads);
    if observedRoot == Some(plan.body.rootIdentity) && contents.Contents? {
      o := CheckAndRun(store, plan, plan.body.operation.mode, contents.list);
    } else {
      o := RefuseUnchecked(store, plan, observedRoot, contents, MaskedBits(store.umask, false));
    }
  }
}
