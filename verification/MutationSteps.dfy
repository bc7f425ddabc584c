/**
 The steps both executors are made of: create directories, fill one stage, apply
 one effect, restore one effect, and clean up what the run owns
 (packages/cli/src/init-mutation.ts and activation-mutation.ts). Each step states
 how it moves the view of the tree and that every state on the way kept the promise.
 */
module MutationSteps {
  import opened Foundations
  import opened MutationModel
  import opened MutationStore
  import opened MutationRun

  datatype Owned = Owned(path: Path, identity: Identity)

  function OwnedPaths(owned: seq<Owned>): (paths: seq<Path>)
    ensures |paths| == |owned|
    ensures forall i :: 0 <= i < |owned| ==> paths[i] == owned[i].path
  {
    seq(|owned|, i requires 0 <= i < |owned| => owned[i].path)
  }

  /** A run owns private stages with their files and the managed directories it created. */
  datatype Owner = OfStages | OfDirectories

  function OwnedPlace(owner: Owner, path: Path): Place {
    if owner.OfStages? then Stage(path) else Managed(path)
  }

  ghost predicate IsOwned(nodes: Nodes, owner: Owner, owned: Owned) {
    OwnedPlace(owner, owned.path) in nodes && nodes[OwnedPlace(owner, owned.path)] == Folder(owned.identity)
  }

  lemma OwnedKept(a: Nodes, b: Nodes, owner: Owner, owned: Owned)
    requires FoldersKept(a, b) && IsOwned(a, owner, owned)
    ensures IsOwned(b, owner, owned)
  {
  }

  /** The run's bookkeeping agrees with the tree, and every state so far kept the promise. */
  ghost predicate Tracking(store: Store, run: Run, copies: seq<Identity>, view: seq<Side>)
    reads store`nodes, store`nextIdentity, store`flags, store`trace
  {
    && store.Valid() && WellLaidOut(run)
    && Holds(run, store.nodes, copies, view)
    && ViewOk(run, copies, view, store.flags)
    && TraceOk(run, store.trace, store.flags)
    && FreshCopies(run, copies)
    && (forall place <- run.before :: run.before[place].identity < store.nextIdentity)
    && (forall i :: 0 <= i < |view| && view[i] != Idle ==> copies[i] < store.nextIdentity)
  }

  ghost predicate SameOutsideItem(run: Run, k: nat, a: Nodes, b: Nodes)
    requires k < |run.items|
  {
    forall place: Place :: !PlaceOf(run, k, place) ==> SameAt(a, b, place)
  }

  lemma ItemOf(run: Run, nodes: Nodes, copies: seq<Identity>, view: seq<Side>, k: nat)
    requires Holds(run, nodes, copies, view) && k < |view|
    ensures |view| == |copies| == |run.items| && ItemIs(run, nodes, copies, k, view[k])
  {
  }

  /** One operation on one effect: re-establishes the view and records the promise. */
  lemma Advance(run: Run, before: Nodes, after: Nodes, copies: seq<Identity>, view: seq<Side>,
                k: nat, side: Side, flags: Flags, trace: seq<Snapshot>)
    requires WellLaidOut(run) && Holds(run, before, copies, view) && k < |view|
    requires SameOutsideItem(run, k, before, after)
    requires ItemIs(run, after, copies, k, side)
    requires ViewOk(run, copies, view[k := side], flags)
    requires TraceOk(run, trace, flags)
    ensures Holds(run, after, copies, view[k := side])
    ensures TraceOk(run, trace + [Snapshot(after, flags)], flags)
  {
    Focus(run, before, after, copies, view, k, side);
    ViewStep(run, after, copies, view[k := side], flags);
    TraceExtends(run, trace, Snapshot(after, flags));
  }

  // ---------------------------------------------------------------------
  // Apply one effect
  // ---------------------------------------------------------------------

  /** A ready effect can be carried out as soon as its directory is there. */
  lemma ReadyToChange(run: Run, nodes: Nodes, copies: seq<Identity>, k: nat)
    requires WellLaidOut(run) && k < |run.items| == |copies| && ItemIs(run, nodes, copies, k, Ready)
    ensures Target(run, k) in nodes ==> !nodes[Target(run, k)].Folder?
    ensures !run.items[k].removes && ParentPresent(nodes, Target(run, k)) ==>
      Renamable(nodes, InStage(run, k, New), Target(run, k))
  {
    hide ParentPresent;
  }

  method ApplyItem(store: Store, item: Item, ghost run: Run, ghost copies: seq<Identity>,
                   ghost view: seq<Side>, ghost k: nat)
    returns (ok: bool, ghost side: Side)
    requires Tracking(store, run, copies, view)
    requires k < |view| && item == run.items[k] && view[k] == Ready
    requires k < |view| - 1 ==> view[|view| - 1] != Changed
    requires k == |view| - 1 ==> forall i :: 0 <= i < k ==> view[i] == Changed
    modifies store`nodes, store`trace
    ensures side == Ready || side == Changed
    ensures ok ==> side == Changed
    ensures Tracking(store, run, copies, view[k := side])
    ensures SameOutsideItem(run, k, old(store.nodes), store.nodes)
    ensures FoldersKept(old(store.nodes), store.nodes) && NoNewRestore(old(store.nodes), store.nodes)
    ensures store.calm && ParentPresent(old(store.nodes), Managed(item.path)) ==> ok
  {
    hide FoldersKept, NoNewRestore, ParentPresent, Renamable, Holds, TraceOk, Planted;
    side := Ready;
    ItemOf(run, store.nodes, copies, view, k);
    ReadyToChange(run, store.nodes, copies, k);
    assert view[k := Ready] == view;
    if item.removes {
      ok := store.RemoveFile(Managed(item.path));
    } else {
      ok := store.Rename(Staged(item.stage, New), Managed(item.path));
    }
    if ok {
      side := Changed;
    }
    Advance(run, old(store.nodes), store.nodes, copies, view, k, side, store.flags, old(store.trace));
    if ok {
      ok := store.AfterOperation();
    }
  }

  // ---------------------------------------------------------------------
  // Fill one slot
  // ---------------------------------------------------------------------

  ghost predicate SlotFree(nodes: Nodes, stage: Path, slot: SlotName) {
    Staged(stage, slot) !in nodes && Stage(stage) in nodes && nodes[Stage(stage)].Folder?
  }

  lemma SlotsAreFree(nodes: Nodes, owned: Owned)
    requires IsOwned(nodes, OfStages, owned) && forall slot :: Staged(owned.path, slot) !in nodes
    ensures forall slot :: SlotFree(nodes, owned.path, slot)
  {
  }

  lemma SlotStaysFree(a: Nodes, b: Nodes, stage: Path)
    requires SlotFree(a, stage, New) && FoldersKept(a, b) && b.Keys <= a.Keys + {Staged(stage, Original)}
    ensures SlotFree(b, stage, New)
  {
  }

  lemma FreeSlotWritable(nodes: Nodes, stage: Path, slot: SlotName)
    requires SlotFree(nodes, stage, slot)
    ensures Staged(stage, slot) !in nodes && ParentPresent(nodes, Staged(stage, slot))
  {
  }

  lemma FoldersSame(nodes: Nodes)
    ensures FoldersKept(nodes, nodes) && NoNewRestore(nodes, nodes)
  {
  }

  /** Fills one slot of a stage: while the effect is idle, or to lay out the copy it is restored from. */
  method WriteSlot(store: Store, item: Item, slot: SlotName, bytes: Bytes, mode: Mode, preserveMode: bool,
                   ghost run: Run, ghost copies: seq<Identity>, ghost view: seq<Side>, ghost k: nat)
    returns (ok: bool)
    requires Tracking(store, run, copies, view) && k < |view| && item == run.items[k]
    requires view[k] == Idle || slot == Restore
    modifies store`nodes, store`nextIdentity, store`trace
    ensures Tracking(store, run, copies, view)
    ensures old(store.nextIdentity) <= store.nextIdentity
    ensures SameOutsideItem(run, k, old(store.nodes), store.nodes)
    ensures store.nodes.Keys <= old(store.nodes).Keys + {Staged(item.stage, slot)}
    ensures ok ==>
      && old(store.nextIdentity) < store.nextIdentity
      && store.nodes == old(store.nodes)[Staged(item.stage, slot) :=
           RegularFile(old(store.nextIdentity), bytes, store.CreatedMode(mode, preserveMode))]
    ensures FoldersKept(old(store.nodes), store.nodes)
    ensures slot != Restore ==> NoNewRestore(old(store.nodes), store.nodes)
    ensures store.calm && SlotFree(old(store.nodes), item.stage, slot) ==> ok
  {
    hide FoldersKept, NoNewRestore, ParentPresent, Holds, TraceOk, Planted;
    if SlotFree(store.nodes, item.stage, slot) {
      FreeSlotWritable(store.nodes, item.stage, slot);
    }
    ItemOf(run, store.nodes, copies, view, k);
    assert view[k := view[k]] == view;
    ok := store.WriteFileExclusive(Staged(item.stage, slot), bytes, mode, preserveMode);
    Advance(run, old(store.nodes), store.nodes, copies, view, k, view[k], store.flags, old(store.trace));
  }

  // ---------------------------------------------------------------------
  // Restore one effect
  // ---------------------------------------------------------------------

  ghost predicate MayRestore(view: seq<Side>, flags: Flags, k: nat)
    requires view != []
  {
    && k < |view| && (view[k] == Ready || view[k] == Changed)
    && (k == |view| - 1 || view[|view| - 1] != Changed || flags.stuck)
  }

  /** Activation also compares the stage copy with the plan before using it. */
  predicate CopyMatches(expected: Option<PathObservation>, copy: Node)
    requires copy.RegularFile?
  {
    && expected.Some? && expected.value.kind == File
    && Some(copy.mode) == expected.value.mode
    && Some(Sha256(copy.bytes)) == expected.value.digest
  }

  /** The initial file matches the plan, if the executor checks its copy against the plan. */
  predicate CopyUsable(run: Run, item: Item, verify: bool, expected: Option<PathObservation>) {
    verify && Managed(item.path) in run.before && run.before[Managed(item.path)].RegularFile? ==>
      CopyMatches(expected, run.before[Managed(item.path)])
  }

  /** Reads the kept copy and writes it beside the stage as `restore`; the destination is not touched. */
  method StageRestoreCopy(store: Store, item: Item, verify: bool, expected: Option<PathObservation>,
                          ghost run: Run, ghost copies: seq<Identity>, ghost view: seq<Side>, ghost k: nat)
    returns (ok: bool)
    requires Tracking(store, run, copies, view) && MayRestore(view, store.flags, k)
    requires item == run.items[k] && Managed(item.path) in run.before
    modifies store`nodes, store`nextIdentity, store`trace
    ensures Tracking(store, run, copies, view)
    ensures SameOutsideItem(run, k, old(store.nodes), store.nodes)
    ensures old(store.nextIdentity) <= store.nextIdentity
    ensures ok ==>
      && Staged(item.stage, Restore) in store.nodes
      && store.nodes[Staged(item.stage, Restore)].identity >= old(store.nextIdentity)
      && SameNode(run.before[Managed(item.path)], store.nodes[Staged(item.stage, Restore)])
    ensures FoldersKept(old(store.nodes), store.nodes)
    ensures store.calm && SlotFree(old(store.nodes), item.stage, Restore) && CopyUsable(run, item, verify, expected) ==> ok
  {
    hide FoldersKept, NoNewRestore, ParentPresent, TraceOk, Planted;
    ItemOf(run, store.nodes, copies, view, k);
    assert view[k := view[k]] == view;
    var copy := store.ReadFile(Staged(item.stage, Original));
    FoldersSame(store.nodes);
    if copy.None? || (verify && !CopyMatches(expected, copy.value)) {
      return false;
    }
    ok := WriteSlot(store, item, Restore, copy.value.bytes, copy.value.mode, true, run, copies, view, k);
    if ok {
      ok := store.AfterOperation();
    }
  }

  ghost predicate MayRestoreCopy(nodes: Nodes, item: Item) {
    SlotFree(nodes, item.stage, Restore) && ParentPresent(nodes, Managed(item.path))
  }

  lemma NoFolderAt(run: Run, nodes: Nodes, copies: seq<Identity>, view: seq<Side>, k: nat)
    requires WellLaidOut(run) && Holds(run, nodes, copies, view) && k < |view| && (view[k] == Ready || view[k] == Changed)
    ensures Target(run, k) in nodes ==> !nodes[Target(run, k)].Folder?
  {
    ItemOf(run, nodes, copies, view, k);
  }

  lemma CopyReplaces(run: Run, nodes: Nodes, copies: seq<Identity>, view: seq<Side>, k: nat)
    requires WellLaidOut(run) && Holds(run, nodes, copies, view) && k < |view| && (view[k] == Ready || view[k] == Changed)
    requires k < |run.items| && InStage(run, k, Restore) in nodes && nodes[InStage(run, k, Restore)].RegularFile?
    ensures ParentPresent(nodes, Target(run, k)) ==> Renamable(nodes, InStage(run, k, Restore), Target(run, k))
  {
    hide Holds, ParentPresent;
    NoFolderAt(run, nodes, copies, view, k);
  }

  /** Replaces the destination by the copy laid out for it. */
  method PutBack(store: Store, item: Item, ghost run: Run, ghost copies: seq<Identity>, ghost view: seq<Side>, ghost k: nat)
    returns (ok: bool, ghost side: Side)
    requires Tracking(store, run, copies, view) && MayRestore(view, store.flags, k)
    requires item == run.items[k] && Managed(item.path) in run.before && Staged(item.stage, Restore) in store.nodes
    requires SameNode(run.before[Managed(item.path)], store.nodes[Staged(item.stage, Restore)])
    requires store.nodes[Staged(item.stage, Restore)].identity > copies[k]
    modifies store`nodes, store`trace
    ensures side == view[k] || side == Restored
    ensures ok ==> side == Restored && ParentPresent(store.nodes, Managed(item.path))
    ensures Tracking(store, run, copies, view[k := side])
    ensures SameOutsideItem(run, k, old(store.nodes), store.nodes)
    ensures FoldersKept(old(store.nodes), store.nodes)
    ensures store.calm && ParentPresent(old(store.nodes), Managed(item.path)) ==> ok
  {
    hide FoldersKept, NoNewRestore, ParentPresent, Renamable, Holds, TraceOk, Planted;
    side := view[k];
    assert view[k := side] == view;
    ItemOf(run, store.nodes, copies, view, k);
    CopyReplaces(run, store.nodes, copies, view, k);
    ok := store.Rename(Staged(item.stage, Restore), Managed(item.path));
    if ok {
      side := Restored;
    }
    Advance(run, old(store.nodes), store.nodes, copies, view, k, side, store.flags, old(store.trace));
    if ok {
      ok := store.AfterOperation();
    }
  }

  method RestoreFromCopy(store: Store, item: Item, verify: bool, expected: Option<PathObservation>,
                         ghost run: Run, ghost copies: seq<Identity>, ghost view: seq<Side>, ghost k: nat)
    returns (ok: bool, ghost side: Side)
    requires Tracking(store, run, copies, view) && MayRestore(view, store.flags, k)
    requires item == run.items[k] && Managed(item.path) in run.before
    modifies store`nodes, store`nextIdentity, store`trace
    ensures side == view[k] || side == Restored
    ensures ok ==> side == Restored && ParentPresent(store.nodes, Managed(item.path))
    ensures Tracking(store, run, copies, view[k := side])
    ensures SameOutsideItem(run, k, old(store.nodes), store.nodes)
    ensures FoldersKept(old(store.nodes), store.nodes)
    ensures store.calm && MayRestoreCopy(old(store.nodes), item) && CopyUsable(run, item, verify, expected) ==> ok
  {
    hide FoldersKept, ParentPresent, Holds, TraceOk, SameNode, CopyUsable, WellLaidOut, FreshCopies, Planted;
    side := view[k];
    assert view[k := side] == view;
    ok := StageRestoreCopy(store, item, verify, expected, run, copies, view, k);
    if ok {
      ghost var written := store.nodes;
      if MayRestoreCopy(old(store.nodes), item) {
        ParentKept(old(store.nodes), written, Managed(item.path));
      }
      ok, side := PutBack(store, item, run, copies, view, k);
      KeptTrans(old(store.nodes), written, store.nodes);
    }
  }

  method RestoreByRemoval(store: Store, item: Item, ghost run: Run, ghost copies: seq<Identity>,
                          ghost view: seq<Side>, ghost k: nat)
    returns (ok: bool, ghost side: Side)
    requires Tracking(store, run, copies, view) && MayRestore(view, store.flags, k)
    requires item == run.items[k] && Managed(item.path) !in run.before
    modifies store`nodes, store`trace
    ensures side == view[k] || side == Restored
    ensures ok ==> side == Restored
    ensures Tracking(store, run, copies, view[k := side])
    ensures SameOutsideItem(run, k, old(store.nodes), store.nodes)
    ensures FoldersKept(old(store.nodes), store.nodes)
    ensures store.calm ==> ok
  {
    hide FoldersKept, NoNewRestore, TraceOk, Planted;
    NoFolderAt(run, store.nodes, copies, view, k);
    side := view[k];
    assert view[k := side] == view;
    ItemOf(run, store.nodes, copies, view, k);
    ok := store.RemoveFile(Managed(item.path));
    if ok {
      side := Restored;
    }
    Advance(run, old(store.nodes), store.nodes, copies, view, k, side, store.flags, old(store.trace));
  }

  /** The body of the recovery loop for one attempted path. */
  method RestoreItem(store: Store, item: Item, hasOriginal: bool, verify: bool, expected: Option<PathObservation>,
                     ghost run: Run, ghost copies: seq<Identity>, ghost view: seq<Side>, ghost k: nat)
    returns (ok: bool, ghost side: Side)
    requires Tracking(store, run, copies, view) && MayRestore(view, store.flags, k)
    requires item == run.items[k] && (hasOriginal <==> Managed(item.path) in run.before)
    modifies store`nodes, store`nextIdentity, store`trace
    ensures side == view[k] || side == Restored
    ensures ok ==> side == Restored
    ensures ok && hasOriginal ==> ParentPresent(store.nodes, Managed(item.path))
    ensures Tracking(store, run, copies, view[k := side])
    ensures SameOutsideItem(run, k, old(store.nodes), store.nodes)
    ensures FoldersKept(old(store.nodes), store.nodes)
    ensures store.calm && MayRestoreCopy(old(store.nodes), item) && CopyUsable(run, item, verify, expected) ==> ok
  {
    hide Planted;
    if hasOriginal {
      ok, side := RestoreFromCopy(store, item, verify, expected, run, copies, view, k);
    } else {
      ok, side := RestoreByRemoval(store, item, run, copies, view, k);
    }
  }

  /** Removing the commit marker so that a half-restored tree is not taken for a complete one. */
  method RemoveMarker(store: Store, marker: Path, ghost run: Run, ghost copies: seq<Identity>, ghost view: seq<Side>)
    returns (ok: bool, ghost side: Side)
    requires Tracking(store, run, copies, view) && view[|view| - 1] != Idle
    requires marker == run.items[|view| - 1].path && store.flags.voided
    modifies store`nodes, store`trace
    ensures side == if ok then Void else view[|view| - 1]
    ensures Tracking(store, run, copies, view[|view| - 1 := side])
    ensures SameOutsideItem(run, |view| - 1, old(store.nodes), store.nodes)
  {
    hide FoldersKept, NoNewRestore, Planted;
    ghost var last := |view| - 1;
    side := view[last];
    assert view[last := side] == view;
    assert ItemIs(run, store.nodes, copies, last, side);
    ok := store.RemoveFile(Managed(marker));
    if ok {
      side := Void;
    }
    Advance(run, old(store.nodes), store.nodes, copies, view, last, side, store.flags, old(store.trace));
  }

  // ---------------------------------------------------------------------
  // Prepare one effect
  // ---------------------------------------------------------------------

  datatype Preparation = Prepared | Threw | Stale

  ghost predicate IdleFor(store: Store, run: Run, copies: seq<Identity>, view: seq<Side>, item: Item, k: nat)
    reads store`nodes, store`nextIdentity, store`flags, store`trace
  {
    && Tracking(store, run, copies, view)
    && k < |view| && item == run.items[k] && view[k] == Idle
    && view[|view| - 1] == Idle
  }

  /** The file the plan was made for, as far as Activation compares it. */
  predicate PlannedFile(expected: PathObservation, file: Node) {
    file.RegularFile? && Some(file.identity) == expected.identity && CopyMatches(Some(expected), file)
  }

  /** The destination held the planned file when the run started, if the executor checks that. */
  predicate AsPlanned(run: Run, item: Item, verify: bool, expected: PathObservation) {
    verify && Managed(item.path) in run.before ==> PlannedFile(expected, run.before[Managed(item.path)])
  }

  /** Reads the destination and writes its copy; Activation rejects a file that is not the planned one. */
  method CopyOriginal(store: Store, item: Item, verify: bool, expected: PathObservation,
                      ghost run: Run, ghost copies: seq<Identity>, ghost view: seq<Side>, ghost k: nat)
    returns (result: Preparation)
    requires IdleFor(store, run, copies, view, item, k) && Managed(item.path) in run.before
    modifies store`nodes, store`nextIdentity, store`trace
    ensures Tracking(store, run, copies, view)
    ensures old(store.nextIdentity) <= store.nextIdentity
    ensures SameOutsideItem(run, k, old(store.nodes), store.nodes)
    ensures store.nodes.Keys <= old(store.nodes).Keys + {Staged(item.stage, Original)}
    ensures result == Prepared ==> CopyKept(run, store.nodes, k)
    ensures result == Stale ==> verify
    ensures FoldersKept(old(store.nodes), store.nodes) && NoNewRestore(old(store.nodes), store.nodes)
    ensures store.calm && SlotFree(old(store.nodes), item.stage, Original) && AsPlanned(run, item, verify, expected) ==>
      result == Prepared
  {
    hide FoldersKept, NoNewRestore, SlotFree, CopyMatches, Tracking, TraceOk, StepOk, Planted;
    IdleTarget(store, run, copies, view, item, k);
    var original := store.ReadFile(Managed(item.path));
    if original.None? {
      FoldersSame(store.nodes);
      return Threw;
    }
    var file := original.value;
    if verify && !PlannedFile(expected, file) {
      FoldersSame(store.nodes);
      return Stale;
    }
    var ok := WriteSlot(store, item, Original, file.bytes, file.mode, true, run, copies, view, k);
    if ok {
      ok := store.AfterOperation();
    }
    result := if ok then Prepared else Threw;
  }

  lemma IdleTarget(store: Store, run: Run, copies: seq<Identity>, view: seq<Side>, item: Item, k: nat)
    requires IdleFor(store, run, copies, view, item, k)
    ensures k < |view| == |copies| == |run.items| && item == run.items[k]
    ensures SameAt(run.before, store.nodes, Managed(item.path))
    ensures Managed(item.path) in run.before ==> run.before[Managed(item.path)].RegularFile?
  {
    hide TraceOk, FreshCopies;
    ItemOf(run, store.nodes, copies, view, k);
  }

  method WriteNew(store: Store, item: Item, requested: Mode, preserveMode: bool,
                  ghost run: Run, ghost copies: seq<Identity>, ghost view: seq<Side>, ghost k: nat)
    returns (ok: bool, ghost copies': seq<Identity>)
    requires IdleFor(store, run, copies, view, item, k) && !item.removes
    requires item.mode == store.CreatedMode(requested, preserveMode) && store.flags.copy.None?
    requires CopyKept(run, store.nodes, k)
    modifies store`nodes, store`nextIdentity, store`trace, store`flags
    ensures SameOutsideItem(run, k, old(store.nodes), store.nodes)
    ensures store.nodes.Keys <= old(store.nodes).Keys + {Staged(item.stage, New)}
    ensures store.flags == old(store.flags).(copy := store.flags.copy)
    ensures !ok ==> Tracking(store, run, copies, view)
    ensures ok ==> Tracking(store, run, copies', view[k := Ready])
    ensures ok && k == |view| - 1 ==> store.flags.copy == Some(copies'[k])
    ensures k < |view| - 1 ==> store.flags.copy == old(store.flags.copy)
    ensures FoldersKept(old(store.nodes), store.nodes) && NoNewRestore(old(store.nodes), store.nodes)
    ensures store.calm && SlotFree(old(store.nodes), item.stage, New) ==> ok
  {
    hide FoldersKept, NoNewRestore, SlotFree, Holds, TraceOk, Planted;
    IdleTarget(store, run, copies, view, item, k);
    ghost var newest := store.nextIdentity;
    ok := WriteSlot(store, item, New, item.bytes, requested, preserveMode, run, copies, view, k);
    copies' := copies;
    if ok {
      copies' := copies[k := newest];
      if k == |view| - 1 {
        ghost var earlier := store.flags;
        store.flags := store.flags.(copy := Some(newest));
        TraceLater(run, store.trace, earlier, store.flags);
      }
      ReadyAtLast(run, store.nodes, copies, view, k, newest);
      ok := store.AfterOperation();
    }
  }

  /** A filled stage makes its effect ready; a copy's identity matters to no idle effect. */
  lemma ReadyAtLast(run: Run, nodes: Nodes, copies: seq<Identity>, view: seq<Side>, k: nat, newest: Identity)
    requires WellLaidOut(run) && Holds(run, nodes, copies, view) && k < |view| && view[k] == Idle
    requires CopyKept(run, nodes, k)
    requires !run.items[k].removes ==>
      && InStage(run, k, New) in nodes
      && nodes[InStage(run, k, New)] == RegularFile(newest, run.items[k].bytes, run.items[k].mode)
    ensures Holds(run, nodes, copies[k := newest], view[k := Ready])
  {
    assert ItemIs(run, nodes, copies, k, Idle);
    var copies', view' := copies[k := newest], view[k := Ready];
    forall i: nat | i < |view'| ensures ItemIs(run, nodes, copies', i, view'[i]) {
      assert ItemIs(run, nodes, copies, i, view[i]);
    }
  }

  /** The new stage directory and the hook behind it. */
  method MakeStage(store: Store, item: Item,
                   ghost run: Run, ghost copies: seq<Identity>, ghost view: seq<Side>, ghost k: nat)
    returns (ok: bool, owned: Option<Owned>)
    requires IdleFor(store, run, copies, view, item, k)
    requires Stage(item.stage) !in store.nodes
    modifies store`nodes, store`nextIdentity, store`trace, store`orphan
    ensures Tracking(store, run, copies, view)
    ensures SameOutsideItem(run, k, old(store.nodes), store.nodes)
    ensures ok ==> owned.Some?
    ensures owned.Some? ==> owned.value.path == item.stage && store.orphan == old(store.orphan)
    ensures owned.None? && Stage(item.stage) in store.nodes ==>
      store.orphan == Some(Stage(item.stage)) && store.nodes[Stage(item.stage)].Folder?
    ensures owned.None? && Stage(item.stage) !in store.nodes ==> store.orphan == old(store.orphan)
    ensures forall slot :: Staged(item.stage, slot) !in store.nodes
    ensures owned.Some? ==> store.nextIdentity > old(store.nextIdentity)
    ensures owned.Some? ==> IsOwned(store.nodes, OfStages, owned.value)
    ensures FoldersKept(old(store.nodes), store.nodes) && NoNewRestore(old(store.nodes), store.nodes)
    ensures store.calm && ParentPresent(old(store.nodes), Stage(item.stage)) ==> ok
  {
    hide FoldersKept, NoNewRestore, ParentPresent, Planted;
    ok, owned := false, None;
    assert ItemIs(run, store.nodes, copies, k, Idle);
    assert view[k := Idle] == view;
    var identity := store.MakeDirectory(Stage(item.stage));
    Advance(run, old(store.nodes), store.nodes, copies, view, k, Idle, store.flags, old(store.trace));
    if identity.Some? {
      owned := Some(Owned(item.stage, identity.value));
      ok := store.AfterOperation();
    }
  }

  /** The body of the preparation loop for one effect. */
  method PrepareItem(store: Store, item: Item, expected: Option<PathObservation>, requested: Mode,
                     preserveMode: bool, verify: bool,
                     ghost run: Run, ghost copies: seq<Identity>, ghost view: seq<Side>, ghost k: nat)
    returns (result: Preparation, owned: Option<Owned>, hasOriginal: bool, ghost copies': seq<Identity>)
    requires IdleFor(store, run, copies, view, item, k)
    requires (expected.Some? && expected.value.kind == File) <==> Managed(item.path) in run.before
    requires item.removes || item.mode == store.CreatedMode(requested, preserveMode)
    requires Stage(item.stage) !in store.nodes && store.flags.copy.None?
    modifies store`nodes, store`nextIdentity, store`trace, store`flags, store`orphan
    ensures SameOutsideItem(run, k, old(store.nodes), store.nodes)
    ensures store.flags == old(store.flags).(copy := store.flags.copy)
    ensures result != Prepared ==> Tracking(store, run, copies, view)
    ensures result == Prepared ==>
      && Tracking(store, run, copies', view[k := Ready])
      && owned.Some? && store.orphan == old(store.orphan)
      && (hasOriginal <==> Managed(item.path) in run.before)
    ensures owned.Some? ==> owned.value.path == item.stage && store.orphan == old(store.orphan)
    ensures owned.None? && Stage(item.stage) in store.nodes ==>
      store.orphan == Some(Stage(item.stage)) && store.nodes[Stage(item.stage)].Folder?
    ensures owned.None? && Stage(item.stage) !in store.nodes ==> store.orphan == old(store.orphan)
    ensures owned.None? ==> forall slot :: Staged(item.stage, slot) !in store.nodes
    ensures result == Prepared && k == |view| - 1 ==> store.flags.copy == Some(copies'[k])
    ensures k < |view| - 1 ==> store.flags.copy == old(store.flags.copy)
    ensures result == Stale ==> verify && owned.Some?
    ensures owned.Some? ==> IsOwned(store.nodes, OfStages, owned.value)
    ensures FoldersKept(old(store.nodes), store.nodes) && NoNewRestore(old(store.nodes), store.nodes)
    ensures store.calm && ParentPresent(old(store.nodes), Stage(item.stage)) &&
            (expected.Some? ==> AsPlanned(run, item, verify, expected.value)) ==>
      result == Prepared
  {
    hide FoldersKept, NoNewRestore, ParentPresent, SlotFree, IsOwned, Holds, TraceOk, CopyMatches, Planted;
    hasOriginal, copies' := false, copies;
    ghost var newest, start := store.nextIdentity, store.nodes;
    var ok;
    ok, owned := MakeStage(store, item, run, copies, view, k);
    if !ok {
      return Threw, owned, false, copies;
    }
    IdleTarget(store, run, copies, view, item, k);
    ghost var made := store.nodes;
    SlotsAreFree(made, owned.value);
    FoldersSame(made);
    if expected.Some? && expected.value.kind == File {
      result := CopyOriginal(store, item, verify, expected.value, run, copies, view, k);
      ForwardTrans(start, made, store.nodes);
      OwnedKept(made, store.nodes, OfStages, owned.value);
      if result != Prepared {
        return;
      }
      hasOriginal := true;
      SlotStaysFree(made, store.nodes, item.stage);
    }
    ghost var copied := store.nodes;
    if item.removes {
      copies' := copies[k := newest];
      ReadyAtLast(run, store.nodes, copies, view, k, newest);
    } else {
      ok, copies' := WriteNew(store, item, requested, preserveMode, run, copies, view, k);
      ForwardTrans(start, copied, store.nodes);
      OwnedKept(copied, store.nodes, OfStages, owned.value);
    }
    result := if ok then Prepared else Threw;
  }
}
