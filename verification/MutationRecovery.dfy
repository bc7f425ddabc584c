/**
 The recovery loop shared by the two executors: attempted effects are restored last
 first, and each path ends up in exactly one of `restored` and `unrecovered`
 (packages/cli/src/init-mutation.ts:541-580, packages/cli/src/activation-mutation.ts:511-551).
 */
module MutationRecovery {
  import opened Foundations
  import opened MutationModel
  import opened MutationStore
  import opened MutationRun
  import opened MutationSteps
  import opened MutationCleanup
  import opened MutationPhases

  datatype RecoveryState = RecoveryState(
    recoveryAttempted: seq<Path>,
    restored: seq<Path>,
    unrecovered: seq<Path>,
    invalidated: seq<Path>,
    invalidationFailed: seq<Path>)

  /** Everything from index i on has been visited, last first, and sorted into one of two lists. */
  ghost predicate RecoveryLists(attempted: seq<Path>, i: nat, r: RecoveryState) {
    && i <= |attempted|
    && r.recoveryAttempted == Reverse(attempted)[..|attempted| - i]
    && Distinct(r.restored) && Distinct(r.unrecovered)
    && (forall path <- r.restored :: path !in r.unrecovered)
    && ToSet(r.restored) + ToSet(r.unrecovered) == ToSet(attempted[i..])
  }

  /** Nothing is idle, unvisited effects are as applied, and a restored path is back. */
  ghost predicate RecoveryView(run: Run, attempted: seq<Path>, i: nat, view: seq<Side>, r: RecoveryState)
  {
    && |view| == |run.items| && i <= |attempted| <= |view|
    && (forall j :: 0 <= j < |view| ==> view[j] != Idle)
    && (forall j :: 0 <= j < i ==> view[j] == Ready || view[j] == Changed)
    && (forall j :: |attempted| <= j < |view| ==> view[j] == Ready)
    && (forall j :: i <= j < |attempted| && run.items[j].path in r.restored ==> view[j] == Restored)
  }

  ghost predicate MarkerGuarded(view: seq<Side>, flags: Flags)
    requires view != []
  {
    view[|view| - 1] != Changed || flags.stuck
  }

  function Sorted(r: RecoveryState, path: Path, ok: bool): RecoveryState {
    var s := r.(recoveryAttempted := r.recoveryAttempted + [path]);
    if ok then s.(restored := r.restored + [path]) else s.(unrecovered := r.unrecovered + [path])
  }

  lemma SortedLists(attempted: seq<Path>, i: nat, r: RecoveryState, ok: bool)
    requires RecoveryLists(attempted, i + 1, r) && Distinct(attempted)
    ensures RecoveryLists(attempted, i, Sorted(r, attempted[i], ok))
  {
    var a, path := |attempted|, attempted[i];
    assert attempted[i..] == [path] + attempted[i + 1..];
    assert path !in attempted[i + 1..];
    assert path !in r.restored by { assert path !in ToSet(attempted[i + 1..]); }
    assert path !in r.unrecovered by { assert path !in ToSet(attempted[i + 1..]); }
    assert Reverse(attempted)[a - 1 - i] == path;
    assert Reverse(attempted)[..a - i] == Reverse(attempted)[..a - i - 1] + [path];
    if ok {
      DistinctAppend(r.restored, path);
      assert ToSet(r.restored + [path]) == ToSet(r.restored) + {path};
    } else {
      DistinctAppend(r.unrecovered, path);
      assert ToSet(r.unrecovered + [path]) == ToSet(r.unrecovered) + {path};
    }
    assert ToSet(attempted[i..]) == ToSet(attempted[i + 1..]) + {path};
  }

  lemma SortedView(run: Run, attempted: seq<Path>, i: nat, view: seq<Side>, r: RecoveryState, ok: bool, side: Side)
    requires RecoveryView(run, attempted, i + 1, view, r) && WellLaidOut(run)
    requires attempted[i] == run.items[i].path && attempted[i] !in r.restored
    requires side == view[i] || side == Restored
    requires ok ==> side == Restored
    ensures RecoveryView(run, attempted, i, view[i := side], Sorted(r, attempted[i], ok))
  {
    var s := Sorted(r, attempted[i], ok);
    forall j | i < j < |attempted| && run.items[j].path in s.restored ensures view[j] == Restored {
      assert run.items[j].path != run.items[i].path;
    }
  }

  /** The first k effects can still be restored: room for their copies, and a directory to put them back. */
  ghost predicate Restorable(run: Run, nodes: Nodes, k: nat) {
    k <= |run.items| && forall j :: 0 <= j < k ==> MayRestoreCopy(nodes, run.items[j])
  }

  lemma OthersRestorable(run: Run, a: Nodes, b: Nodes, i: nat)
    requires WellLaidOut(run) && Restorable(run, a, i + 1) && SameOutsideItem(run, i, a, b) && FoldersKept(a, b)
    ensures Restorable(run, b, i) && MayRestoreCopy(a, run.items[i])
  {
    hide ParentPresent, FoldersKept;
    assert MayRestoreCopy(a, run.items[i]);
    forall j | 0 <= j < i ensures MayRestoreCopy(b, run.items[j]) {
      assert MayRestoreCopy(a, run.items[j]);
      ParentKept(a, b, Managed(run.items[j].path));
      assert SameAt(a, b, Stage(run.items[j].stage)) by { assert !PlaceOf(run, i, Stage(run.items[j].stage)); }
      assert SameAt(a, b, InStage(run, j, Restore)) by { assert !PlaceOf(run, i, InStage(run, j, Restore)); }
    }
  }

  lemma PlannedIsUsable(plan: Plan, run: Run, verify: bool, i: nat)
    requires OriginalsPlanned(plan, run, verify) && i < |run.items|
    ensures CopyUsable(run, run.items[i], verify, FindPrecondition(plan.body.preconditions, run.items[i].path))
  {
  }

  method RestoreNext(store: Store, plan: Plan, item: Item, originals: set<Path>, verify: bool, r: RecoveryState,
                     ghost run: Run, ghost copies: seq<Identity>, ghost view: seq<Side>,
                     ghost attempted: seq<Path>, ghost i: nat)
    returns (ok: bool, r': RecoveryState, ghost view': seq<Side>)
    requires Tracking(store, run, copies, view) && ItemsMatch(plan, run) && i < |attempted| && Distinct(attempted)
    requires RecoveryLists(attempted, i + 1, r) && RecoveryView(run, attempted, i + 1, view, r)
    requires i == |view| - 1 || MarkerGuarded(view, store.flags)
    requires item == run.items[i] && attempted[i] == item.path
    requires OriginalsKnown(run, originals, |run.items|)
    modifies store`nodes, store`nextIdentity, store`trace
    ensures Tracking(store, run, copies, view')
    ensures RecoveryLists(attempted, i, r') && RecoveryView(run, attempted, i, view', r')
    ensures r' == Sorted(r, item.path, ok)
    ensures i == |view| - 1 && ok ==> view'[i] == Restored
    ensures ok && item.path in originals ==> ParentPresent(store.nodes, Managed(item.path))
    ensures i < |view| - 1 ==> MarkerGuarded(view', store.flags)
    ensures view'[|view| - 1] == view[|view| - 1] || view'[|view| - 1] == Restored
    ensures Confined(plan, {}, None, old(store.nodes), store.nodes)
    ensures FoldersKept(old(store.nodes), store.nodes)
    ensures store.calm && OriginalsPlanned(plan, run, verify) && Restorable(run, old(store.nodes), i + 1) ==>
      ok && Restorable(run, store.nodes, i)
  {
    hide FoldersKept, MayRestoreCopy, CopyUsable, OriginalsPlanned, Holds, TraceOk, FreshCopies, Planted, ViewOk;
    var expected := FindPrecondition(plan.body.preconditions, item.path);
    if OriginalsPlanned(plan, run, verify) {
      PlannedIsUsable(plan, run, verify, i);
    }
    ghost var side;
    ok, side := RestoreItem(store, item, item.path in originals, verify, expected, run, copies, view, i);
    view' := view[i := side];
    r' := Sorted(r, item.path, ok);
    SortedLists(attempted, i, r, ok);
    assert item.path !in r.restored by {
      assert item.path !in attempted[i + 1..];
      assert item.path !in ToSet(attempted[i + 1..]);
    }
    SortedView(run, attempted, i, view, r, ok, side);
    if Restorable(run, old(store.nodes), i + 1) {
      OthersRestorable(run, old(store.nodes), store.nodes, i);
    }
    ItemConfined(plan, run, i, {}, None, old(store.nodes), store.nodes);
  }

  // ---------------------------------------------------------------------
  // The fate of the commit marker
  // ---------------------------------------------------------------------

  /** From now on the marker may be absent. */
  ghost method AllowAbsentMarker(store: Store, run: Run, copies: seq<Identity>, view: seq<Side>)
    requires Tracking(store, run, copies, view)
    modifies store`flags
    ensures store.flags == old(store.flags).(voided := true)
    ensures Tracking(store, run, copies, view)
  {
    hide Planted;
    store.flags := store.flags.(voided := true);
  }

  /** The marker's removal has failed and has been recorded, or has to wait until everything else was visited. */
  ghost method RecordStuckMarker(store: Store, run: Run, copies: seq<Identity>, view: seq<Side>)
    requires Tracking(store, run, copies, view)
    modifies store`flags
    ensures store.flags == old(store.flags).(stuck := true)
    ensures Tracking(store, run, copies, view)
  {
    hide Planted;
    store.flags := store.flags.(stuck := true);
  }

  // ---------------------------------------------------------------------
  // A tree on one side
  // ---------------------------------------------------------------------

  lemma SettleInitial(run: Run, nodes: Nodes, copies: seq<Identity>, view: seq<Side>, flags: Flags)
    requires WellLaidOut(run) && Holds(run, nodes, copies, view) && ViewOk(run, copies, view, flags)
    requires forall j :: 0 <= j < |view| ==> view[j] == Idle || view[j] == Ready || view[j] == Restored
    ensures AllInitial(run, nodes)
    ensures Settled(run, nodes, flags.(settled := true))
  {
    forall j: nat | j < |run.items| ensures AtInitial(run, nodes, j) {
      ItemStep(run, nodes, copies, j, view[j]);
    }
    var last := |view| - 1;
    assert ItemIs(run, nodes, copies, last, view[last]);
  }

  lemma SettlePlanned(run: Run, nodes: Nodes, copies: seq<Identity>, view: seq<Side>, flags: Flags)
    requires WellLaidOut(run) && Holds(run, nodes, copies, view) && ViewOk(run, copies, view, flags)
    requires forall j :: 0 <= j < |view| ==> view[j] == Changed
    ensures AllPlanned(run, nodes)
    ensures Settled(run, nodes, flags.(settled := true))
  {
    forall j: nat | j < |run.items| ensures AtPlanned(run, nodes, j) {
      ItemStep(run, nodes, copies, j, view[j]);
    }
  }

  lemma CopiesRetained(run: Run, nodes: Nodes, copies: seq<Identity>, view: seq<Side>)
    requires Holds(run, nodes, copies, view)
    requires forall j :: 0 <= j < |view| ==> view[j] != Idle
    ensures forall j: nat :: j < |run.items| ==> CopyKept(run, nodes, j)
  {
    forall j: nat | j < |run.items| ensures CopyKept(run, nodes, j) {
      assert ItemIs(run, nodes, copies, j, view[j]);
    }
  }
}
