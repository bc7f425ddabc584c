/**
 Removal of the private stages and created directories a run owns
 (cleanupStages and cleanupDirectories, packages/cli/src/init-mutation.ts:189-252
 and packages/cli/src/activation-mutation.ts:82-145). Only a settled tree is
 cleaned, and cleaning never touches a destination.
 */
module MutationCleanup {
  import opened Foundations
  import opened MutationModel
  import opened MutationStore
  import opened MutationRun
  import opened MutationSteps

  ghost predicate Settled(run: Run, nodes: Nodes, flags: Flags)
    requires run.items != []
  {
    flags.settled && MarkerKnown(run, nodes, flags.copy) &&
    ((AllInitial(run, nodes) && !NewMarkerInPlace(run, nodes, flags.copy)) || AllPlanned(run, nodes))
  }

  ghost predicate Cleaning(store: Store, run: Run)
    reads store`nodes, store`nextIdentity, store`flags, store`trace
  {
    store.Valid() && run.items != [] && Settled(run, store.nodes, store.flags) && TraceOk(run, store.trace, store.flags)
  }

  ghost predicate SameTargets(run: Run, a: Nodes, b: Nodes) {
    forall i: nat :: i < |run.items| ==> SameAt(a, b, Target(run, i))
  }

  lemma SettledStays(run: Run, a: Nodes, b: Nodes, flags: Flags, trace: seq<Snapshot>)
    requires run.items != [] && Settled(run, a, flags) && SameTargets(run, a, b) && TraceOk(run, trace, flags)
    ensures Settled(run, b, flags)
    ensures TraceOk(run, trace + [Snapshot(b, flags)], flags)
  {
    assert SameAt(a, b, Target(run, |run.items| - 1));
    SidesStay(run, a, b);
    TraceExtends(run, trace, Snapshot(b, flags));
  }

  lemma SidesStay(run: Run, a: Nodes, b: Nodes)
    requires SameTargets(run, a, b)
    ensures AllInitial(run, a) ==> AllInitial(run, b)
    ensures AllPlanned(run, a) ==> AllPlanned(run, b)
  {
    if AllInitial(run, a) {
      forall i: nat | i < |run.items| ensures AtInitial(run, b, i) {
        assert AtInitial(run, a, i) && SameAt(a, b, Target(run, i));
      }
    }
    if AllPlanned(run, a) {
      forall i: nat | i < |run.items| ensures AtPlanned(run, b, i) {
        assert AtPlanned(run, a, i) && SameAt(a, b, Target(run, i));
      }
    }
  }

  predicate Inside(owner: Owner, path: Path, place: Place) {
    match place
    case Managed(p) => owner.OfDirectories? && p == path
    case Stage(p) => owner.OfStages? && p == path
    case Staged(p, _) => owner.OfStages? && p == path
  }

  ghost predicate SameBeyond(owner: Owner, path: Path, a: Nodes, b: Nodes) {
    forall place: Place :: !Inside(owner, path, place) ==> SameAt(a, b, place)
  }

  function OwnerPath(place: Place): Path {
    match place
    case Managed(path) => path
    case Stage(path) => path
    case Staged(path, _) => path
  }

  ghost predicate SameBeyondAll(owner: Owner, paths: set<Path>, a: Nodes, b: Nodes) {
    forall place: Place ::
      SameAt(a, b, place) || (OwnerPath(place) in paths && place.Managed? == owner.OfDirectories?)
  }

  ghost predicate NotTarget(run: Run, owner: Owner, path: Path) {
    owner.OfDirectories? ==> forall i: nat :: i < |run.items| ==> run.items[i].path != path
  }

  lemma TargetsUntouched(run: Run, owner: Owner, path: Path, a: Nodes, b: Nodes)
    requires NotTarget(run, owner, path) && SameBeyond(owner, path, a, b)
    ensures SameTargets(run, a, b)
  {
    forall i: nat | i < |run.items| ensures SameAt(a, b, Target(run, i)) {
      assert !Inside(owner, path, Target(run, i));
    }
  }

  /** Nothing but files in a private stage. */
  ghost predicate FilesInStage(nodes: Nodes, path: Path) {
    forall slot :: Staged(path, slot) in nodes ==> !nodes[Staged(path, slot)].Folder?
  }

  lemma EmptiedIsEmpty(nodes: Nodes, path: Path)
    requires forall slot :: Staged(path, slot) !in nodes
    ensures EmptyFolder(nodes, Stage(path))
  {
    forall other | other in nodes ensures ParentOf(other) != Stage(path) {
      assert other.Staged? ==> other == Staged(other.stage, other.slot);
    }
  }

  /** A stage the run made, with nothing but files in it. */
  ghost predicate OwnStage(nodes: Nodes, owned: Owned) {
    IsOwned(nodes, OfStages, owned) && FilesInStage(nodes, owned.path)
  }

  /** What an undisturbed cleanup can remove: a stage of the run's own, or an empty directory of its own. */
  ghost predicate Removable(nodes: Nodes, owner: Owner, owned: Owned) {
    if owner.OfStages? then OwnStage(nodes, owned)
    else IsOwned(nodes, OfDirectories, owned) && EmptyFolder(nodes, Managed(owned.path))
  }

  method RemoveSlot(store: Store, path: Path, slot: SlotName, ghost run: Run) returns (ok: bool)
    requires Cleaning(store, run)
    modifies store`nodes, store`trace
    ensures Cleaning(store, run)
    ensures SameBeyond(OfStages, path, old(store.nodes), store.nodes)
    ensures store.nodes == if ok then old(store.nodes) - {Staged(path, slot)} else old(store.nodes)
    ensures store.calm && FilesInStage(old(store.nodes), path) ==> ok
  {
    hide FoldersKept, Planted;
    ok := store.RemoveFile(Staged(path, slot));
    TargetsUntouched(run, OfStages, path, old(store.nodes), store.nodes);
    SettledStays(run, old(store.nodes), store.nodes, store.flags, old(store.trace));
  }

  method RemoveSlots(store: Store, path: Path, ghost run: Run) returns (ok: bool)
    requires Cleaning(store, run)
    modifies store`nodes, store`trace
    ensures Cleaning(store, run)
    ensures SameBeyond(OfStages, path, old(store.nodes), store.nodes)
    ensures SameAt(old(store.nodes), store.nodes, Stage(path))
    ensures ok ==> forall slot :: Staged(path, slot) !in store.nodes
    ensures store.nodes.Keys <= old(store.nodes).Keys
    ensures store.calm && FilesInStage(old(store.nodes), path) ==> ok
  {
    hide Cleaning, Planted;
    ok := RemoveSlot(store, path, New, run);
    if ok {
      ok := RemoveSlot(store, path, Restore, run);
    }
    if ok {
      ok := RemoveSlot(store, path, Original, run);
    }
    forall slot | ok ensures Staged(path, slot) !in store.nodes {
      assert slot == New || slot == Restore || slot == Original;
    }
  }

  ghost predicate VacantFolder(nodes: Nodes, place: Place) {
    place in nodes && nodes[place].Folder? && EmptyFolder(nodes, place)
  }

  method RemoveFolder(store: Store, owner: Owner, path: Path, ghost run: Run) returns (ok: bool)
    requires Cleaning(store, run) && NotTarget(run, owner, path)
    modifies store`nodes, store`trace
    ensures Cleaning(store, run)
    ensures ok ==> OwnedPlace(owner, path) !in store.nodes
    ensures SameBeyond(owner, path, old(store.nodes), store.nodes)
    ensures store.nodes.Keys <= old(store.nodes).Keys
    ensures store.calm && VacantFolder(old(store.nodes), OwnedPlace(owner, path)) ==> ok
  {
    hide EmptyFolder, Planted;
    ok := store.RemoveDirectory(OwnedPlace(owner, path));
    TargetsUntouched(run, owner, path, old(store.nodes), store.nodes);
    SettledStays(run, old(store.nodes), store.nodes, store.flags, old(store.trace));
  }

  /** The body of either cleanup loop: true when the directory must be reported as residue. */
  method CleanupOne(store: Store, owner: Owner, owned: Owned, ghost run: Run) returns (leftover: bool)
    requires Cleaning(store, run) && NotTarget(run, owner, owned.path)
    modifies store`nodes, store`trace
    ensures Cleaning(store, run)
    ensures !leftover ==> OwnedPlace(owner, owned.path) !in store.nodes
    ensures SameBeyond(owner, owned.path, old(store.nodes), store.nodes)
    ensures store.nodes.Keys <= old(store.nodes).Keys
    ensures store.calm && Removable(old(store.nodes), owner, owned) ==> !leftover
  {
    hide Cleaning, FilesInStage, EmptyFolder, Planted;
    var place := OwnedPlace(owner, owned.path);
    var seen := store.Inspect(place);
    if seen.Present? && seen.node != Folder(owned.identity) {
      return true;
    }
    var ok := seen.Present?;
    if ok && owner.OfStages? {
      ok := RemoveSlots(store, owned.path, run);
      if ok {
        EmptiedIsEmpty(store.nodes, owned.path);
      }
    }
    if ok {
      ok := RemoveFolder(store, owner, owned.path, run);
    }
    if ok {
      leftover := false;
    } else {
      seen := store.Inspect(place);
      leftover := !seen.Absent?;
    }
  }

  ghost predicate OwnStages(nodes: Nodes, list: seq<Owned>) {
    forall k :: 0 <= k < |list| ==> OwnStage(nodes, list[k])
  }

  lemma OtherStagesStay(a: Nodes, b: Nodes, list: seq<Owned>, i: nat)
    requires i < |list| && Distinct(OwnedPaths(list)) && SameBeyond(OfStages, list[i].path, a, b)
    requires OwnStages(a, list[..i + 1])
    ensures OwnStages(b, list[..i]) && OwnStage(a, list[i])
  {
    assert list[..i + 1][i] == list[i];
    forall k | 0 <= k < i ensures OwnStage(b, list[..i][k]) {
      var owned := list[..i + 1][k];
      assert OwnedPaths(list)[k] != OwnedPaths(list)[i];
      assert OwnStage(a, owned);
      assert SameAt(a, b, Stage(owned.path)) by { assert !Inside(OfStages, list[i].path, Stage(owned.path)); }
      forall slot ensures SameAt(a, b, Staged(owned.path, slot)) {
        assert !Inside(OfStages, list[i].path, Staged(owned.path, slot));
      }
    }
  }

  /** Directories of the run's own, holding nothing but later ones. */
  ghost predicate OwnFolders(nodes: Nodes, list: seq<Owned>) {
    forall k :: 0 <= k < |list| ==> IsOwned(nodes, OfDirectories, list[k]) && OnlyLater(nodes, list, k)
  }

  ghost predicate OnlyLater(nodes: Nodes, list: seq<Owned>, k: nat)
    requires k < |list|
  {
    forall place <- nodes :: ParentOf(place) == Managed(list[k].path) && place != Managed(list[k].path) ==>
      exists m :: k < m < |list| && place == Managed(list[m].path)
  }

  lemma OtherFoldersStay(a: Nodes, b: Nodes, list: seq<Owned>, i: nat)
    requires i < |list| && Distinct(OwnedPaths(list)) && SameBeyond(OfDirectories, list[i].path, a, b)
    requires OwnFolders(a, list[..i + 1]) && b.Keys <= a.Keys && Managed(list[i].path) !in b
    ensures OwnFolders(b, list[..i])
  {
    forall k | 0 <= k < i ensures IsOwned(b, OfDirectories, list[..i][k]) && OnlyLater(b, list[..i], k) {
      var owned := list[..i + 1][k];
      assert OwnedPaths(list)[k] != OwnedPaths(list)[i];
      assert IsOwned(a, OfDirectories, owned) && OnlyLater(a, list[..i + 1], k);
      assert SameAt(a, b, Managed(owned.path)) by { assert !Inside(OfDirectories, list[i].path, Managed(owned.path)); }
      forall place | place in b && ParentOf(place) == Managed(owned.path) && place != Managed(owned.path)
        ensures exists m :: k < m < i && place == Managed(list[..i][m].path)
      {
        var m :| k < m < i + 1 && place == Managed(list[..i + 1][m].path);
        assert m != i;
        assert place == Managed(list[..i][m].path);
      }
    }
  }

  ghost predicate AllRemovable(nodes: Nodes, owner: Owner, list: seq<Owned>) {
    if owner.OfStages? then OwnStages(nodes, list) else OwnFolders(nodes, list)
  }

  lemma LastRemovable(nodes: Nodes, owner: Owner, list: seq<Owned>, i: nat)
    requires i < |list| && AllRemovable(nodes, owner, list[..i + 1])
    ensures Removable(nodes, owner, list[i])
  {
    var shown := list[..i + 1];
    assert shown[i] == list[i];
    if owner.OfDirectories? {
      assert IsOwned(nodes, OfDirectories, shown[i]) && OnlyLater(nodes, shown, i);
    }
  }

  lemma OthersStay(a: Nodes, b: Nodes, owner: Owner, list: seq<Owned>, i: nat)
    requires i < |list| && Distinct(OwnedPaths(list)) && SameBeyond(owner, list[i].path, a, b)
    requires AllRemovable(a, owner, list[..i + 1]) && b.Keys <= a.Keys && OwnedPlace(owner, list[i].path) !in b
    ensures AllRemovable(b, owner, list[..i])
  {
    if owner.OfStages? {
      OtherStagesStay(a, b, list, i);
    } else {
      OtherFoldersStay(a, b, list, i);
    }
  }

  method CleanupOwned(store: Store, owner: Owner, list: seq<Owned>, ghost run: Run) returns (residue: seq<Path>)
    requires Cleaning(store, run) && Distinct(OwnedPaths(list))
    requires forall path <- OwnedPaths(list) :: NotTarget(run, owner, path)
    modifies store`nodes, store`trace
    ensures Cleaning(store, run)
    ensures SameBeyondAll(owner, ToSet(OwnedPaths(list)), old(store.nodes), store.nodes)
    ensures Distinct(residue) && ToSet(residue) <= ToSet(OwnedPaths(list))
    ensures forall path <- OwnedPaths(list) :: path in residue || OwnedPlace(owner, path) !in store.nodes
    ensures store.calm && AllRemovable(old(store.nodes), owner, list) ==> residue == []
  {
    hide Cleaning, AllRemovable, Removable, Planted;
    var backwards: seq<Path> := [];
    ghost var paths := OwnedPaths(list);
    var i := |list|;
    ghost var calm := store.calm && AllRemovable(store.nodes, owner, list);
    assert list[..i] == list;
    while i > 0
      invariant 0 <= i <= |list|
      invariant Cleaning(store, run)
      invariant SameBeyondAll(owner, ToSet(paths), old(store.nodes), store.nodes)
      invariant Distinct(backwards)
      invariant forall path <- backwards :: path in paths[i..]
      invariant calm ==> backwards == [] && AllRemovable(store.nodes, owner, list[..i])
      invariant forall j :: i <= j < |paths| ==> paths[j] in backwards || OwnedPlace(owner, paths[j]) !in store.nodes
    {
      i := i - 1;
      ghost var earlier := store.nodes;
      assert list[i].path == paths[i] && paths[i] in paths;
      if calm {
        LastRemovable(store.nodes, owner, list, i);
      }
      var leftover := CleanupOne(store, owner, list[i], run);
      BeyondExtends(owner, paths, i, old(store.nodes), earlier, store.nodes);
      if calm {
        OthersStay(earlier, store.nodes, owner, list, i);
      }
      assert paths[i] !in paths[i + 1..];
      assert forall path <- paths[i + 1..] :: path in paths[i..];
      if leftover {
        DistinctAppend(backwards, paths[i]);
        backwards := backwards + [list[i].path];
      }
    }
    residue := Reverse(backwards);
    DistinctReverse(backwards);
    assert ToSet(residue) == ToSet(backwards);
    forall path | path in paths ensures path in residue || OwnedPlace(owner, path) !in store.nodes {
      var j :| 0 <= j < |paths| && paths[j] == path;
      assert path in ToSet(residue) <==> path in ToSet(backwards);
    }
    forall path | path in residue ensures path in paths {
      assert path in ToSet(backwards);
    }
  }

  lemma BeyondExtends(owner: Owner, paths: seq<Path>, i: nat, a: Nodes, b: Nodes, c: Nodes)
    requires i < |paths| && Distinct(paths)
    requires SameBeyondAll(owner, ToSet(paths), a, b) && SameBeyond(owner, paths[i], b, c)
    ensures SameBeyondAll(owner, ToSet(paths), a, c)
    ensures forall j :: i < j < |paths| ==> SameAt(b, c, OwnedPlace(owner, paths[j]))
  {
    forall place: Place
      ensures SameAt(a, c, place) || (OwnerPath(place) in ToSet(paths) && place.Managed? == owner.OfDirectories?)
    {
      if !Inside(owner, paths[i], place) {
        assert SameAt(b, c, place);
      }
    }
    forall j | i < j < |paths| ensures SameAt(b, c, OwnedPlace(owner, paths[j])) {
      assert !Inside(owner, paths[i], OwnedPlace(owner, paths[j]));
    }
  }
}
