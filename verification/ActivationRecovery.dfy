/**
 Activation's recovery (packages/cli/src/activation-mutation.ts:511-576): every attempted
 effect is visited before the commit marker is considered.
 */
module ActivationRecovery {
  import opened Foundations
  import opened MutationModel
  import opened MutationStore
  import opened MutationRun
  import opened MutationSteps
  import opened MutationPlan
  import opened MutationPhases
  import opened MutationRecovery
  import opened ActivationScope

  /** The lists and the view when everything from index i on has been visited. */
  ghost predicate UndoneFrom(plan: Plan, run: Run, view: seq<Side>, attempted: seq<Path>, i: nat,
                             r: RecoveryState, flags: Flags)
  {
    && ItemsMatch(plan, run) && WellFormedPlan(plan) && |view| == |run.items|
    && |attempted| <= |run.items| && attempted == EffectPaths(plan)[..|attempted|]
    && RecoveryLists(attempted, i, r) && RecoveryView(run, attempted, i, view, r)
    && (i == |run.items| || MarkerGuarded(view, flags))
    && view[|view| - 1] != Void && r.invalidated == [] && r.invalidationFailed == []
    && !flags.voided && (flags.stuck ==> plan.body.commitMarker in r.unrecovered)
  }

  predicate FolderAt(nodes: Nodes, path: Path) {
    Managed(path) in nodes && nodes[Managed(path)].Folder?
  }

  /** A legacy file that was put back has its directory around it. */
  ghost predicate FolderBack(nodes: Nodes, r: RecoveryState, originals: set<Path>) {
    forall path <- r.restored ::
      path in originals && ParentPath(path) == LEGACY_DIRECTORY ==> FolderAt(nodes, LEGACY_DIRECTORY)
  }

  lemma UndoStarts(plan: Plan, run: Run, attempted: seq<Path>, reached: nat, flags: Flags)
    requires ItemsMatch(plan, run) && WellFormedPlan(plan) && MarkerUntouched(flags)
    requires reached <= |attempted| <= |run.items| && attempted == EffectPaths(plan)[..|attempted|]
    ensures UndoneFrom(plan, run, Progress(|run.items|, reached, Changed, Ready), attempted, |attempted|,
                       RecoveryState([], [], [], [], []), flags)
  {
    assert ToSet(attempted[|attempted|..]) == {};
  }

  lemma BeforeUndo(plan: Plan, run: Run, view: seq<Side>, attempted: seq<Path>, i: nat, r: RecoveryState, flags: Flags)
    requires i < |attempted| && UndoneFrom(plan, run, view, attempted, i + 1, r, flags)
    ensures Distinct(attempted) && attempted[i] == run.items[i].path
    ensures i == |view| - 1 || MarkerGuarded(view, flags)
  {
    assert forall j, k :: 0 <= j < k < |attempted| ==> EffectPaths(plan)[j] != EffectPaths(plan)[k];
  }

  lemma UndoneOne(plan: Plan, run: Run, view: seq<Side>, view': seq<Side>, attempted: seq<Path>, i: nat,
                  r: RecoveryState, ok: bool, flags: Flags, flags': Flags)
    requires i < |attempted| && UndoneFrom(plan, run, view, attempted, i + 1, r, flags)
    requires var r' := Sorted(r, attempted[i], ok);
      RecoveryLists(attempted, i, r') && RecoveryView(run, attempted, i, view', r')
    requires MarkerGuarded(view', flags')
    requires view'[|view| - 1] == view[|view| - 1] || view'[|view| - 1] == Restored
    requires flags' == flags || (flags' == flags.(stuck := true) && !ok && attempted[i] == plan.body.commitMarker)
    ensures UndoneFrom(plan, run, view', attempted, i, Sorted(r, attempted[i], ok), flags')
  {
  }

  lemma FolderStays(plan: Plan, r: RecoveryState, path: Path, ok: bool, originals: set<Path>, a: Nodes, b: Nodes)
    requires FolderBack(a, r, originals) && Confined(plan, {}, None, a, b) && LEGACY_DIRECTORY !in EffectPaths(plan)
    requires ok && path in originals ==> ParentPresent(b, Managed(path))
    ensures FolderBack(b, Sorted(r, path, ok), originals)
  {
    assert SameAt(a, b, Managed(LEGACY_DIRECTORY)) || MayTouch(plan, {}, None, Managed(LEGACY_DIRECTORY));
    ScopeLengths();
  }

  method UndoNext(store: Store, plan: Plan, item: Item, originals: set<Path>, r: RecoveryState,
                  ghost run: Run, ghost copies: seq<Identity>, ghost view: seq<Side>,
                  ghost attempted: seq<Path>, ghost i: nat)
    returns (r': RecoveryState, ghost view': seq<Side>)
    requires i < |attempted| && UndoneFrom(plan, run, view, attempted, i + 1, r, store.flags)
    requires Tracking(store, run, copies, view) && LEGACY_DIRECTORY !in EffectPaths(plan)
    requires item == run.items[i] && OriginalsKnown(run, originals, |run.items|)
    requires FolderBack(store.nodes, r, originals)
    modifies store`nodes, store`nextIdentity, store`trace, store`flags
    ensures Tracking(store, run, copies, view')
    ensures UndoneFrom(plan, run, view', attempted, i, r', store.flags)
    ensures FolderBack(store.nodes, r', originals)
    ensures Confined(plan, {}, None, old(store.nodes), store.nodes)
    ensures FoldersKept(old(store.nodes), store.nodes)
    ensures store.calm && OriginalsPlanned(plan, run, true) && Restorable(run, old(store.nodes), i + 1) ==>
      r'.unrecovered == r.unrecovered && Restorable(run, store.nodes, i)
  {
    hide RecoveryLists, Holds, TraceOk, Restorable, FoldersKept, OriginalsPlanned, Planted;
    BeforeUndo(plan, run, view, attempted, i, r, store.flags);
    var ok;
    ok, r', view' := RestoreNext(store, plan, item, originals, true, r, run, copies, view, attempted, i);
    FolderStays(plan, r, item.path, ok, originals, old(store.nodes), store.nodes);
    if !ok && item.path == plan.body.commitMarker {
      RecordStuckMarker(store, run, copies, view');
    }
    assert i == |view| - 1 ==> EffectPaths(plan)[i] == plan.body.commitMarker;
    UndoneOne(plan, run, view, view', attempted, i, r, ok, old(store.flags), store.flags);
  }

  method UndoItems(store: Store, plan: Plan, items: seq<Item>, originals: set<Path>, attempted: seq<Path>,
                   ghost run: Run, ghost copies: seq<Identity>, ghost reached: nat)
    returns (r: RecoveryState, ghost view: seq<Side>)
    requires run.items == items && |copies| == |items| && ItemsMatch(plan, run) && WellFormedPlan(plan)
    requires LEGACY_DIRECTORY !in EffectPaths(plan)
    requires Tracking(store, run, copies, Progress(|items|, reached, Changed, Ready))
    requires reached <= |attempted| <= |items| && attempted == EffectPaths(plan)[..|attempted|]
    requires OriginalsKnown(run, originals, |items|) && MarkerUntouched(store.flags)
    modifies store`nodes, store`nextIdentity, store`trace, store`flags
    ensures Tracking(store, run, copies, view)
    ensures UndoneFrom(plan, run, view, attempted, 0, r, store.flags)
    ensures FolderBack(store.nodes, r, originals)
    ensures Confined(plan, {}, None, old(store.nodes), store.nodes)
    ensures FoldersKept(old(store.nodes), store.nodes)
    ensures store.calm && OriginalsPlanned(plan, run, true) && Restorable(run, old(store.nodes), |items|) ==>
      r.unrecovered == []
  {
    hide FoldersKept, Tracking, UndoneFrom, FolderBack, OriginalsPlanned, Planted;
    var i: nat := |attempted|;
    ghost var calm := store.calm && OriginalsPlanned(plan, run, true) && Restorable(run, store.nodes, |items|);
    FoldersSame(store.nodes);
    NothingBack(store.nodes, originals);
    r, view := RecoveryState([], [], [], [], []), Progress(|items|, reached, Changed, Ready);
    UndoStarts(plan, run, attempted, reached, store.flags);
    while i > 0
      invariant i <= |attempted|
      invariant Tracking(store, run, copies, view)
      invariant UndoneFrom(plan, run, view, attempted, i, r, store.flags)
      invariant FolderBack(store.nodes, r, originals)
      invariant Confined(plan, {}, None, old(store.nodes), store.nodes)
      invariant FoldersKept(old(store.nodes), store.nodes)
      invariant calm ==> r.unrecovered == [] && Restorable(run, store.nodes, i)
    {
      i := i - 1;
      ghost var earlier := store.nodes;
      r, view := UndoNext(store, plan, items[i], originals, r, run, copies, view, attempted, i);
      ConfinedTrans(plan, {}, {}, None, None, old(store.nodes), earlier, store.nodes);
      KeptTrans(old(store.nodes), earlier, store.nodes);
    }
  }

  lemma NothingBack(nodes: Nodes, originals: set<Path>)
    ensures FolderBack(nodes, RecoveryState([], [], [], [], []), originals)
  {
  }

  /** After the loop: the marker goes, or its removal is reported as failed. */
  method RemoveLostMarker(store: Store, plan: Plan, r: RecoveryState,
                          ghost run: Run, ghost copies: seq<Identity>, ghost view: seq<Side>, ghost attempted: seq<Path>)
    returns (r': RecoveryState, ghost view': seq<Side>)
    requires Tracking(store, run, copies, view) && UndoneFrom(plan, run, view, attempted, 0, r, store.flags)
    modifies store`nodes, store`trace, store`flags
    ensures Tracking(store, run, copies, view')
    ensures forall j :: 0 <= j < |view'| ==> view'[j] != Idle
    ensures r' == r.(invalidated := r'.invalidated, invalidationFailed := r'.invalidationFailed)
    ensures if view'[|view'| - 1] == Void
            then r'.invalidated == [plan.body.commitMarker] && r'.invalidationFailed == []
            else r'.invalidated == [] && r'.invalidationFailed == [plan.body.commitMarker]
    ensures store.flags == old(store.flags).(voided := true)
  {
    hide Planted;
    var marker := plan.body.commitMarker;
    assert run.items[|view| - 1].path == marker;
    AllowAbsentMarker(store, run, copies, view);
    var ok;
    ghost var side;
    ok, side := RemoveMarker(store, marker, run, copies, view);
    view' := view[|view| - 1 := side];
    r' := if ok then r.(invalidated := [marker]) else r.(invalidationFailed := [marker]);
  }
}
