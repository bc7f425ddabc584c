/**
 Init's recovery (packages/cli/src/init-mutation.ts:541-609): when the commit marker
 cannot be restored it is removed at once, before anything else is undone, and any
 unrecovered path leads to one attempt to remove the marker.
 */
module InitRecovery {
  import opened Foundations
  import opened MutationModel
  import opened MutationStore
  import opened MutationRun
  import opened MutationSteps
  import opened MutationPlan
  import opened MutationPhases
  import opened MutationRecovery

  /** The marker's removal is in exactly one list, and a failed one is on record. */
  predicate Invalidated(marker: Path, r: RecoveryState, stuck: bool) {
    || (r.invalidated == [marker] && r.invalidationFailed == [] && !stuck)
    || (r.invalidated == [] && r.invalidationFailed == [marker] && stuck)
  }

  predicate NotInvalidated(r: RecoveryState, stuck: bool) {
    r.invalidated == [] && r.invalidationFailed == [] && !stuck
  }

  /** The marker's fate once its own effect has been visited. */
  ghost predicate MarkerHandled(plan: Plan, n: nat, i: nat, view: seq<Side>, r: RecoveryState, flags: Flags)
    requires view != []
  {
    var marker := plan.body.commitMarker;
    && (i == n || MarkerGuarded(view, flags))
    && (view[|view| - 1] == Void ==> r.invalidated == [marker])
    && (if marker in r.unrecovered then Invalidated(marker, r, flags.stuck) else NotInvalidated(r, flags.stuck))
    && (flags.voided ==> marker in r.unrecovered)
  }

  /** Tries to remove the marker and records how that went. */
  method Invalidate(store: Store, plan: Plan, r: RecoveryState, ghost run: Run, ghost copies: seq<Identity>, ghost view: seq<Side>)
    returns (r': RecoveryState, ghost view': seq<Side>)
    requires Tracking(store, run, copies, view) && ItemsMatch(plan, run) && WellFormedPlan(plan)
    requires NotInvalidated(r, store.flags.stuck) && view[|view| - 1] != Idle
    modifies store`nodes, store`trace, store`flags
    ensures Tracking(store, run, copies, view')
    ensures r' == r.(invalidated := r'.invalidated, invalidationFailed := r'.invalidationFailed)
    ensures Invalidated(plan.body.commitMarker, r', store.flags.stuck)
    ensures MarkerGuarded(view', store.flags)
    ensures |view'| == |view| && view'[..|view| - 1] == view[..|view| - 1]
    ensures view'[|view| - 1] == if r'.invalidated == [plan.body.commitMarker] then Void else view[|view| - 1]
    ensures Confined(plan, {}, None, old(store.nodes), store.nodes)
  {
    hide Planted;
    var marker := plan.body.commitMarker;
    AllowAbsentMarker(store, run, copies, view);
    assert run.items[|view| - 1].path == marker;
    var ok;
    ghost var side;
    ok, side := RemoveMarker(store, marker, run, copies, view);
    view' := view[|view| - 1 := side];
    ItemConfined(plan, run, |view| - 1, {}, None, old(store.nodes), store.nodes);
    if ok {
      r' := r.(invalidated := [marker]);
    } else {
      r' := r.(invalidationFailed := [marker]);
      RecordStuckMarker(store, run, copies, view');
    }
  }

  /** The lists and the view when everything from index i on has been visited. */
  ghost predicate RecoveryFacts(plan: Plan, run: Run, view: seq<Side>, attempted: seq<Path>, i: nat,
                                r: RecoveryState, flags: Flags)
  {
    && ItemsMatch(plan, run) && WellFormedPlan(plan) && |view| == |run.items|
    && |attempted| <= |run.items| && attempted == EffectPaths(plan)[..|attempted|]
    && RecoveryLists(attempted, i, r) && RecoveryView(run, attempted, i, view, r)
    && MarkerHandled(plan, |run.items|, i, view, r, flags)
  }

  lemma RecoveryStarts(plan: Plan, run: Run, attempted: seq<Path>, reached: nat, flags: Flags)
    requires ItemsMatch(plan, run) && WellFormedPlan(plan) && MarkerUntouched(flags)
    requires reached <= |attempted| <= |run.items| && attempted == EffectPaths(plan)[..|attempted|]
    ensures RecoveryFacts(plan, run, Progress(|run.items|, reached, Changed, Ready), attempted, |attempted|,
                          RecoveryState([], [], [], [], []), flags)
  {
    assert ToSet(attempted[|attempted|..]) == {};
  }

  lemma MarkerIsLast(plan: Plan, attempted: seq<Path>, i: nat, r: RecoveryState)
    requires WellFormedPlan(plan) && |attempted| <= |plan.body.effects|
    requires attempted == EffectPaths(plan)[..|attempted|] && RecoveryLists(attempted, i, r)
    ensures Distinct(attempted)
    ensures i < |attempted| ==> (attempted[i] == plan.body.commitMarker <==> i == |plan.body.effects| - 1)
    ensures i == |plan.body.effects| ==> plan.body.commitMarker !in r.unrecovered
  {
    assert EffectPaths(plan)[|plan.body.effects| - 1] == plan.body.commitMarker;
    if i == |plan.body.effects| {
      assert ToSet(attempted[i..]) == {};
      assert plan.body.commitMarker !in ToSet(r.unrecovered);
    }
  }

  /** One visited effect that is not a lost marker keeps the facts. */
  lemma VisitedOne(plan: Plan, run: Run, view: seq<Side>, view': seq<Side>, attempted: seq<Path>, i: nat,
                   r: RecoveryState, ok: bool, flags: Flags)
    requires i < |attempted| && RecoveryFacts(plan, run, view, attempted, i + 1, r, flags)
    requires var r' := Sorted(r, attempted[i], ok);
      RecoveryLists(attempted, i, r') && RecoveryView(run, attempted, i, view', r')
    requires i == |view| - 1 && ok ==> view'[i] == Restored
    requires i < |view| - 1 ==> MarkerGuarded(view', flags)
    requires view'[|view| - 1] == view[|view| - 1] || view'[|view| - 1] == Restored
    requires ok || attempted[i] != plan.body.commitMarker
    ensures RecoveryFacts(plan, run, view', attempted, i, Sorted(r, attempted[i], ok), flags)
  {
    MarkerIsLast(plan, attempted, i + 1, r);
    MarkerIsLast(plan, attempted, i, Sorted(r, attempted[i], ok));
  }

  /** A marker that could not be restored is dealt with before anything else is undone. */
  lemma VisitedLostMarker(plan: Plan, run: Run, view: seq<Side>, sorted: seq<Side>, view': seq<Side>,
                          attempted: seq<Path>, i: nat, r: RecoveryState, r': RecoveryState, flags: Flags, flags': Flags)
    requires i < |attempted| && RecoveryFacts(plan, run, view, attempted, i + 1, r, flags)
    requires var s := Sorted(r, attempted[i], false);
      && RecoveryLists(attempted, i, s) && RecoveryView(run, attempted, i, sorted, s)
      && r' == s.(invalidated := r'.invalidated, invalidationFailed := r'.invalidationFailed)
    requires attempted[i] == plan.body.commitMarker
    requires Invalidated(plan.body.commitMarker, r', flags'.stuck)
    requires |view'| == |sorted| && view'[..|view| - 1] == sorted[..|view| - 1]
    requires view'[|view| - 1] == if r'.invalidated == [plan.body.commitMarker] then Void else sorted[|view| - 1]
    requires sorted[|view| - 1] != Void
    requires MarkerGuarded(view', flags')
    ensures RecoveryFacts(plan, run, view', attempted, i, r', flags')
  {
    MarkerIsLast(plan, attempted, i, Sorted(r, attempted[i], false));
    assert forall j :: 0 <= j < |view| - 1 ==> view'[j] == view'[..|view| - 1][j] == sorted[j];
    assert attempted[i] !in r.restored by {
      assert attempted[i] in Sorted(r, attempted[i], false).unrecovered;
    }
  }

  /** What a visit may rely on. */
  lemma BeforeVisit(plan: Plan, run: Run, view: seq<Side>, attempted: seq<Path>, i: nat, r: RecoveryState, flags: Flags)
    requires i < |attempted| && RecoveryFacts(plan, run, view, attempted, i + 1, r, flags)
    ensures Distinct(attempted) && attempted[i] == run.items[i].path
    ensures i == |view| - 1 || MarkerGuarded(view, flags)
    ensures attempted[i] == plan.body.commitMarker ==> NotInvalidated(r, flags.stuck) && i == |view| - 1
  {
    MarkerIsLast(plan, attempted, i + 1, r);
    SortedLists(attempted, i, r, false);
    MarkerIsLast(plan, attempted, i, Sorted(r, attempted[i], false));
  }

  method InvalidateLostMarker(store: Store, plan: Plan, s: RecoveryState,
                              ghost run: Run, ghost copies: seq<Identity>, ghost view: seq<Side>, ghost sorted: seq<Side>,
                              ghost attempted: seq<Path>, ghost i: nat, ghost r: RecoveryState)
    returns (r': RecoveryState, ghost view': seq<Side>)
    requires Tracking(store, run, copies, sorted)
    requires i < |attempted| && RecoveryFacts(plan, run, view, attempted, i + 1, r, store.flags)
    requires s == Sorted(r, attempted[i], false) && attempted[i] == plan.body.commitMarker
    requires RecoveryLists(attempted, i, s) && RecoveryView(run, attempted, i, sorted, s)
    requires sorted[|view| - 1] == view[|view| - 1] || sorted[|view| - 1] == Restored
    modifies store`nodes, store`trace, store`flags
    ensures Tracking(store, run, copies, view')
    ensures RecoveryFacts(plan, run, view', attempted, i, r', store.flags)
    ensures Confined(plan, {}, None, old(store.nodes), store.nodes)
  {
    hide Planted;
    BeforeVisit(plan, run, view, attempted, i, r, store.flags);
    r', view' := Invalidate(store, plan, s, run, copies, sorted);
    VisitedLostMarker(plan, run, view, sorted, view', attempted, i, r, r', old(store.flags), store.flags);
  }

  /** Init does not compare the copies it restores from. */
  lemma NothingCompared(plan: Plan, run: Run)
    ensures OriginalsPlanned(plan, run, false)
  {
  }

  method RecoverNext(store: Store, plan: Plan, item: Item, originals: set<Path>, r: RecoveryState,
                     ghost run: Run, ghost copies: seq<Identity>, ghost view: seq<Side>,
                     ghost attempted: seq<Path>, ghost i: nat)
    returns (r': RecoveryState, ghost view': seq<Side>)
    requires i < |attempted| && RecoveryFacts(plan, run, view, attempted, i + 1, r, store.flags)
    requires Tracking(store, run, copies, view)
    requires item == run.items[i] && OriginalsKnown(run, originals, |run.items|)
    modifies store`nodes, store`nextIdentity, store`trace, store`flags
    ensures Tracking(store, run, copies, view')
    ensures RecoveryFacts(plan, run, view', attempted, i, r', store.flags)
    ensures Confined(plan, {}, None, old(store.nodes), store.nodes)
    ensures store.calm && Restorable(run, old(store.nodes), i + 1) ==>
      && r'.unrecovered == r.unrecovered && Restorable(run, store.nodes, i)
      && FoldersKept(old(store.nodes), store.nodes)
  {
    hide Restorable, FoldersKept, Planted;
    NothingCompared(plan, run);
    BeforeVisit(plan, run, view, attempted, i, r, store.flags);
    var ok;
    ok, r', view' := RestoreNext(store, plan, item, originals, false, r, run, copies, view, attempted, i);
    if !ok && item.path == plan.body.commitMarker {
      ghost var between := store.nodes;
      r', view' := InvalidateLostMarker(store, plan, r', run, copies, view, view', attempted, i, r);
      ConfinedTrans(plan, {}, {}, None, None, old(store.nodes), between, store.nodes);
    } else {
      VisitedOne(plan, run, view, view', attempted, i, r, ok, store.flags);
    }
  }

  method RecoverItems(store: Store, plan: Plan, items: seq<Item>, originals: set<Path>, attempted: seq<Path>,
                      ghost run: Run, ghost copies: seq<Identity>, ghost reached: nat)
    returns (r: RecoveryState, ghost view: seq<Side>)
    requires run.items == items && |copies| == |items| && ItemsMatch(plan, run) && WellFormedPlan(plan)
    requires Tracking(store, run, copies, Progress(|items|, reached, Changed, Ready))
    requires reached <= |attempted| <= |items| && attempted == EffectPaths(plan)[..|attempted|]
    requires OriginalsKnown(run, originals, |items|) && MarkerUntouched(store.flags)
    modifies store`nodes, store`nextIdentity, store`trace, store`flags
    ensures Tracking(store, run, copies, view)
    ensures RecoveryFacts(plan, run, view, attempted, 0, r, store.flags)
    ensures Confined(plan, {}, None, old(store.nodes), store.nodes)
    ensures store.calm && Restorable(run, old(store.nodes), |items|) ==>
      r.unrecovered == [] && FoldersKept(old(store.nodes), store.nodes)
  {
    hide FoldersKept, Tracking, RecoveryFacts, Planted;
    var i: nat := |attempted|;
    ghost var calm := store.calm && Restorable(run, store.nodes, |items|);
    FoldersSame(store.nodes);
    r, view := RecoveryState([], [], [], [], []), Progress(|items|, reached, Changed, Ready);
    RecoveryStarts(plan, run, attempted, reached, store.flags);
    while i > 0
      invariant i <= |attempted|
      invariant Tracking(store, run, copies, view)
      invariant RecoveryFacts(plan, run, view, attempted, i, r, store.flags)
      invariant Confined(plan, {}, None, old(store.nodes), store.nodes)
      invariant calm ==>
        r.unrecovered == [] && Restorable(run, store.nodes, i) && FoldersKept(old(store.nodes), store.nodes)
    {
      i := i - 1;
      ghost var earlier := store.nodes;
      r, view := RecoverNext(store, plan, items[i], originals, r, run, copies, view, attempted, i);
      ConfinedTrans(plan, {}, {}, None, None, old(store.nodes), earlier, store.nodes);
      if calm {
        KeptTrans(old(store.nodes), earlier, store.nodes);
      }
    }
  }

  /** After the loop: any unrecovered path forces an attempt to remove the marker. */
  method InvalidateIfUnrecovered(store: Store, plan: Plan, r: RecoveryState,
                                 ghost run: Run, ghost copies: seq<Identity>, ghost view: seq<Side>,
                                 ghost attempted: seq<Path>)
    returns (r': RecoveryState, ghost view': seq<Side>)
    requires Tracking(store, run, copies, view)
    requires RecoveryFacts(plan, run, view, attempted, 0, r, store.flags) && r.unrecovered != []
    modifies store`nodes, store`trace, store`flags
    ensures Tracking(store, run, copies, view')
    ensures forall j :: 0 <= j < |view'| ==> view'[j] != Idle
    ensures MarkerGuarded(view', store.flags)
    ensures view'[|view'| - 1] == Void ==> r'.invalidated == [plan.body.commitMarker]
    ensures r' == r.(invalidated := r'.invalidated, invalidationFailed := r'.invalidationFailed)
    ensures Invalidated(plan.body.commitMarker, r', store.flags.stuck)
    ensures Confined(plan, {}, None, old(store.nodes), store.nodes)
  {
    hide Holds, TraceOk, WellLaidOut, Planted;
    var marker := plan.body.commitMarker;
    r', view' := r, view;
    if marker !in r.invalidated && marker !in r.invalidationFailed {
      var seen := store.Inspect(Managed(marker));
      match seen
      case Present(_) =>
        r', view' := Invalidate(store, plan, r, run, copies, view);
        assert forall j :: 0 <= j < |view| - 1 ==> view'[j] == view'[..|view| - 1][j] == view[j];
      case Absent =>
        r' := r.(invalidated := [marker]);
      case Unreadable =>
        r' := r.(invalidationFailed := [marker]);
        RecordStuckMarker(store, run, copies, view);
    }
  }
}
