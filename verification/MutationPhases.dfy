/**
 The loops shared by the two executors: create missing directories, prepare every
 stage, apply every effect in plan order (packages/cli/src/init-mutation.ts:379-539,
 packages/cli/src/activation-mutation.ts:278-475).
 */
module MutationPhases {
  import opened Foundations
  import opened MutationModel
  import opened MutationStore
  import opened MutationRun
  import opened MutationSteps
  import opened MutationCleanup
  import opened MutationPlan

  /** The bytes an effect installs and the mode it asks for. */
  datatype Content = Content(bytes: Bytes, requested: Mode)

  function ItemsOf(plan: Plan, contents: seq<Content>, masked: Mode): (items: seq<Item>)
    requires |contents| == |plan.body.effects| == |plan.body.stagePreconditions|
    ensures |items| == |contents|
    ensures forall i :: 0 <= i < |items| ==>
      items[i] == Item(plan.body.effects[i].path, plan.body.stagePreconditions[i],
                       plan.body.effects[i].kind.Remove?, contents[i].bytes, contents[i].requested - masked)
  {
    seq(|contents|, i requires 0 <= i < |contents| =>
      Item(plan.body.effects[i].path, plan.body.stagePreconditions[i],
           plan.body.effects[i].kind.Remove?, contents[i].bytes, contents[i].requested - masked))
  }

  /** Permission bits a new file loses: none when its mode is set explicitly. */
  function MaskedBits(umask: Mode, preserveMode: bool): Mode {
    if preserveMode then {} else umask
  }

  /** The tree matches the plan's preconditions and none of its stages exists. */
  ghost predicate PlanFits(plan: Plan, nodes: Nodes) {
    && (forall entry <- plan.body.preconditions :: Truthful(nodes, entry))
    && (forall path <- plan.body.stagePreconditions :: Stage(path) !in nodes)
  }

  lemma FittingPlanIsLaidOut(plan: Plan, run: Run, contents: seq<Content>, masked: Mode)
    requires WellFormedPlan(plan) && PlanFits(plan, run.before)
    requires |contents| == |plan.body.effects| && run.items == ItemsOf(plan, contents, masked)
    ensures WellLaidOut(run)
    ensures forall i: nat :: i < |run.items| ==>
      var expected := FindPrecondition(plan.body.preconditions, run.items[i].path);
      && expected.Some? && (expected.value.kind == File <==> Target(run, i) in run.before)
  {
    forall i: nat | i < |run.items|
      ensures
        var expected := FindPrecondition(plan.body.preconditions, run.items[i].path);
        expected.Some? && (expected.value.kind == File <==> Target(run, i) in run.before)
      ensures Target(run, i) in run.before ==> run.before[Target(run, i)].RegularFile?
    {
      var path := EffectPaths(plan)[i];
      assert path in EffectPaths(plan) && path == run.items[i].path;
      var entry :| entry in plan.body.preconditions && entry.path == path && (entry.kind == File || entry.kind == Missing);
      FoundUnique(plan.body.preconditions, entry);
      assert Truthful(run.before, entry);
    }
    forall i, j | 0 <= i < j < |run.items|
      ensures run.items[i].path != run.items[j].path && run.items[i].stage != run.items[j].stage
    {
      assert EffectPaths(plan)[i] != EffectPaths(plan)[j];
    }
  }

  lemma {:induction false} FoundUnique(entries: seq<PathObservation>, entry: PathObservation)
    requires Distinct(ObservedPaths(entries)) && entry in entries
    ensures FindPrecondition(entries, entry.path) == Some(entry)
  {
    var i :| 0 <= i < |entries| && entries[i] == entry;
    if i > 0 {
      assert ObservedPaths(entries)[0] != ObservedPaths(entries)[i];
      assert ObservedPaths(entries[1..]) == ObservedPaths(entries)[1..];
      assert entries[1..][i - 1] == entry;
      FoundUnique(entries[1..], entry);
    }
  }

  // ---------------------------------------------------------------------
  // Where a run may leave traces
  // ---------------------------------------------------------------------

  predicate MayTouch(plan: Plan, created: set<Path>, orphan: Option<Place>, place: Place) {
    || orphan == Some(place)
    || (if place.Managed? then place.path in EffectPaths(plan) || place.path in created
        else OwnerPath(place) in plan.body.stagePreconditions)
  }

  /** Only destinations, created directories, private stages and an orphan can differ. */
  ghost predicate Confined(plan: Plan, created: set<Path>, orphan: Option<Place>, a: Nodes, b: Nodes) {
    forall place: Place :: SameAt(a, b, place) || MayTouch(plan, created, orphan, place)
  }

  lemma ConfinedTrans(plan: Plan, created: set<Path>, created': set<Path>,
                      orphan: Option<Place>, orphan': Option<Place>, a: Nodes, b: Nodes, c: Nodes)
    requires Confined(plan, created, orphan, a, b) && Confined(plan, created', orphan', b, c)
    requires created <= created' && (orphan == None || orphan == orphan')
    ensures Confined(plan, created', orphan', a, c)
  {
    forall place: Place ensures SameAt(a, c, place) || MayTouch(plan, created', orphan', place) {
      if SameAt(a, b, place) && SameAt(b, c, place) {
      } else if !SameAt(a, b, place) {
        assert MayTouch(plan, created, orphan, place);
      }
    }
  }

  lemma ItemConfined(plan: Plan, run: Run, k: nat, created: set<Path>, orphan: Option<Place>, a: Nodes, b: Nodes)
    requires |run.items| == |plan.body.effects| == |plan.body.stagePreconditions| && k < |run.items|
    requires run.items[k].path == plan.body.effects[k].path && run.items[k].stage == plan.body.stagePreconditions[k]
    requires SameOutsideItem(run, k, a, b)
    ensures Confined(plan, created, orphan, a, b)
  {
    forall place: Place ensures SameAt(a, b, place) || MayTouch(plan, created, orphan, place) {
      if PlaceOf(run, k, place) {
        assert EffectPaths(plan)[k] in EffectPaths(plan);
        assert plan.body.stagePreconditions[k] in plan.body.stagePreconditions;
      }
    }
  }

  ghost predicate ItemsMatch(plan: Plan, run: Run) {
    && |run.items| == |plan.body.effects| == |plan.body.stagePreconditions|
    && (forall i: nat :: i < |run.items| ==>
          && run.items[i].path == plan.body.effects[i].path
          && run.items[i].stage == plan.body.stagePreconditions[i]
          && run.items[i].removes == plan.body.effects[i].kind.Remove?)
  }

  // ---------------------------------------------------------------------
  // Create the missing directories
  // ---------------------------------------------------------------------

  function IdleView(n: nat): seq<Side> {
    seq(n, _ => Idle)
  }

  lemma IdleStays(run: Run, copies: seq<Identity>, a: Nodes, b: Nodes, flags: Flags, trace: seq<Snapshot>)
    requires WellLaidOut(run) && |copies| == |run.items| && SameTargets(run, a, b) && TraceOk(run, trace, flags)
    requires Holds(run, a, copies, IdleView(|copies|)) && ViewOk(run, copies, IdleView(|copies|), flags)
    ensures Holds(run, b, copies, IdleView(|copies|))
    ensures TraceOk(run, trace + [Snapshot(b, flags)], flags)
  {
    var view := IdleView(|copies|);
    forall i: nat | i < |view| ensures ItemIs(run, b, copies, i, view[i]) {
      assert ItemIs(run, a, copies, i, view[i]) && SameAt(a, b, Target(run, i));
    }
    ViewStep(run, b, copies, view, flags);
    TraceExtends(run, trace, Snapshot(b, flags));
  }

  /** Created directories were planned as missing, and were missing. */
  ghost predicate PlannedMissing(plan: Plan, before: Nodes, created: seq<Owned>) {
    forall path <- OwnedPaths(created) ::
      && Managed(path) !in before
      && exists entry :: entry in plan.body.preconditions && entry.path == path && entry.kind == Missing
  }

  ghost predicate SameButFolders(paths: seq<Path>, orphan: Option<Place>, a: Nodes, b: Nodes) {
    forall place: Place ::
      SameAt(a, b, place) || (place.Managed? && (place.path in paths || orphan == Some(place)))
  }

  lemma FolderStep(paths: seq<Path>, paths': seq<Path>, orphan: Option<Place>, directory: Path, a: Nodes, b: Nodes, c: Nodes)
    requires SameButFolders(paths, None, a, b) && SameBeyond(OfDirectories, directory, b, c)
    requires paths' == paths || paths' == paths + [directory]
    requires b == c || directory in paths' || orphan == Some(Managed(directory))
    ensures SameButFolders(paths', orphan, a, c)
  {
    forall place: Place
      ensures SameAt(a, c, place) || (place.Managed? && (place.path in paths' || orphan == Some(place)))
    {
      assert SameAt(a, b, place) || (place.Managed? && place.path in paths');
      if !Inside(OfDirectories, directory, place) {
        assert SameAt(b, c, place);
      }
    }
  }

  lemma FoldersConfined(plan: Plan, paths: seq<Path>, orphan: Option<Place>, a: Nodes, b: Nodes)
    requires SameButFolders(paths, orphan, a, b)
    ensures Confined(plan, ToSet(paths), orphan, a, b)
    ensures forall place: Place :: place.Managed? || SameAt(a, b, place)
  {
  }

  /** The directories the plan finds missing have been made. */
  ghost predicate Built(plan: Plan, directories: seq<Path>, nodes: Nodes) {
    forall path <- directories :: PlannedKind(plan, path, Missing) ==> Managed(path) in nodes && nodes[Managed(path)].Folder?
  }

  lemma HousePresent(plan: Plan, directories: seq<Path>, before: Nodes, nodes: Nodes, path: Path)
    requires PlanFits(plan, before) && FoldersKept(before, nodes) && Built(plan, directories, nodes)
    requires Housed(plan, directories, path)
    ensures ParentPresent(nodes, Managed(path)) && ParentPresent(nodes, Stage(path))
  {
    var parent := ParentPath(path);
    if PlannedKind(plan, parent, Directory) {
      assert Truthful(before, FindPrecondition(plan.body.preconditions, parent).value);
    }
  }

  lemma BuiltOneMore(plan: Plan, directories: seq<Path>, d: nat, a: Nodes, b: Nodes)
    requires d < |directories| && Built(plan, directories[..d], a) && FoldersKept(a, b)
    requires PlannedKind(plan, directories[d], Missing) ==> Managed(directories[d]) in b && b[Managed(directories[d])].Folder?
    ensures Built(plan, directories[..d + 1], b)
  {
    forall path | path in directories[..d + 1] && PlannedKind(plan, path, Missing)
      ensures Managed(path) in b && b[Managed(path)].Folder?
    {
      assert path in directories[..d] || path == directories[d];
    }
  }

  ghost predicate OwnAll(nodes: Nodes, owner: Owner, list: seq<Owned>) {
    forall k :: 0 <= k < |list| ==> IsOwned(nodes, owner, list[k])
  }

  lemma OwnAllKept(a: Nodes, b: Nodes, owner: Owner, list: seq<Owned>)
    requires FoldersKept(a, b) && OwnAll(a, owner, list)
    ensures OwnAll(b, owner, list)
  {
    hide FoldersKept, NoNewRestore, IsOwned;
    forall k | 0 <= k < |list| ensures IsOwned(b, owner, list[k]) {
      OwnedKept(a, b, owner, list[k]);
    }
  }

  lemma OwnOneMore(nodes: Nodes, owner: Owner, list: seq<Owned>, owned: Owned)
    requires OwnAll(nodes, owner, list) && IsOwned(nodes, owner, owned)
    ensures OwnAll(nodes, owner, list + [owned])
  {
  }

  method CreateDirectory(store: Store, plan: Plan, directory: Path, ghost run: Run, ghost copies: seq<Identity>)
    returns (ok: bool, owned: Option<Owned>)
    requires Tracking(store, run, copies, IdleView(|copies|)) && ItemsMatch(plan, run)
    requires store.orphan == None && directory !in EffectPaths(plan)
    modifies store`nodes, store`nextIdentity, store`trace, store`orphan
    ensures Tracking(store, run, copies, IdleView(|copies|))
    ensures ok ==> owned.Some?
    ensures owned.Some? ==> owned.value.path == directory && store.orphan == None && Managed(directory) !in old(store.nodes)
    ensures owned.None? && store.orphan == None ==> store.nodes == old(store.nodes)
    ensures store.orphan.Some? ==>
      && store.orphan == Some(Managed(directory)) && Managed(directory) !in old(store.nodes)
      && Managed(directory) in store.nodes && store.nodes[Managed(directory)].Folder?
    ensures SameBeyond(OfDirectories, directory, old(store.nodes), store.nodes)
    ensures FoldersKept(old(store.nodes), store.nodes) && NoNewRestore(old(store.nodes), store.nodes)
    ensures owned.Some? ==> IsOwned(store.nodes, OfDirectories, owned.value)
    ensures store.calm && Managed(directory) !in old(store.nodes) && ParentPresent(old(store.nodes), Managed(directory)) ==> ok
  {
    hide FoldersKept, NoNewRestore, ParentPresent, Holds, TraceOk, Planted;
    ok, owned := false, None;
    var identity := store.MakeDirectory(Managed(directory));
    DirectoryIsNoTarget(plan, run, directory, old(store.nodes), store.nodes);
    IdleStays(run, copies, old(store.nodes), store.nodes, store.flags, old(store.trace));
    if identity.Some? {
      owned := Some(Owned(directory, identity.value));
      ok := store.AfterOperation();
    }
  }

  method CreateDirectories(store: Store, plan: Plan, directories: seq<Path>, ghost run: Run, ghost copies: seq<Identity>)
    returns (ok: bool, created: seq<Owned>)
    requires Tracking(store, run, copies, IdleView(|copies|)) && ItemsMatch(plan, run)
    requires store.nodes == run.before && store.orphan == None
    requires Distinct(directories)
    requires forall path <- directories :: path !in EffectPaths(plan)
    modifies store`nodes, store`nextIdentity, store`trace, store`orphan
    ensures Tracking(store, run, copies, IdleView(|copies|))
    ensures Distinct(OwnedPaths(created)) && (forall path <- OwnedPaths(created) :: path in directories)
    ensures PlannedMissing(plan, run.before, created)
    ensures SameButFolders(OwnedPaths(created), store.orphan, run.before, store.nodes)
    ensures ok ==> store.orphan == None
    ensures store.orphan.Some? ==>
      && store.orphan.value !in run.before && store.orphan.value in store.nodes && store.nodes[store.orphan.value].Folder?
      && store.orphan.value.Managed? && store.orphan.value.path !in OwnedPaths(created)
    ensures FoldersKept(run.before, store.nodes) && NoNewRestore(run.before, store.nodes) && OwnAll(store.nodes, OfDirectories, created)
    ensures store.calm && Reachable(plan, directories) && PlanFits(plan, run.before) ==>
      ok && Built(plan, directories, store.nodes)
    ensures Reachable(plan, directories) ==> ParentFirst(OwnedPaths(created))
  {
    hide Planted;
    hide FoldersKept, NoNewRestore, ParentPresent, OwnAll, Built, Housed, Reachable, PlanFits, IsOwned, Tracking;
    hide ParentFirst, MadeInOrder;
    created, ok := [], true;
    ghost var calm := store.calm && Reachable(plan, directories) && PlanFits(plan, run.before);
    FoldersSame(run.before);
    NothingBuilt(plan, directories, run.before);
    for d := 0 to |directories|
      invariant Tracking(store, run, copies, IdleView(|copies|))
      invariant Distinct(OwnedPaths(created)) && PlannedMissing(plan, run.before, created)
      invariant forall path <- OwnedPaths(created) :: path in directories[..d]
      invariant SameButFolders(OwnedPaths(created), None, run.before, store.nodes)
      invariant store.orphan == None && ok
      invariant FoldersKept(run.before, store.nodes) && NoNewRestore(run.before, store.nodes) && OwnAll(store.nodes, OfDirectories, created)
      invariant calm ==> Built(plan, directories[..d], store.nodes)
      invariant Reachable(plan, directories) ==>
        ParentFirst(OwnedPaths(created)) && MadeInOrder(plan, directories, d, OwnedPaths(created))
    {
      var directory := directories[d];
      var expected := FindPrecondition(plan.body.preconditions, directory);
      assert directory in directories && directory !in directories[..d];
      if Reachable(plan, directories) {
        OneMoreInOrder(plan, directories, d, OwnedPaths(created));
      }
      if expected.Some? && expected.value.kind == Missing {
        assert SameAt(run.before, store.nodes, Managed(directory));
        ghost var earlier, paths := store.nodes, OwnedPaths(created);
        if calm {
          NextHouse(plan, directories, d, run.before, earlier);
        }
        var owned;
        ok, owned := CreateDirectory(store, plan, directory, run, copies);
        ForwardTrans(run.before, earlier, store.nodes);
        OwnAllKept(earlier, store.nodes, OfDirectories, created);
        if owned.Some? {
          OwnOneMore(store.nodes, OfDirectories, created, owned.value);
          AppendOwned(created, owned.value);
          DistinctAppend(OwnedPaths(created), directory);
          created := created + [owned.value];
          assert expected.value in plan.body.preconditions;
        }
        FolderStep(paths, OwnedPaths(created), store.orphan, directory, run.before, earlier, store.nodes);
        if !ok {
          return;
        }
        if calm {
          OwnedIsBuilt(store.nodes, owned.value);
          BuiltOneMore(plan, directories, d, earlier, store.nodes);
        }
      } else if calm {
        FoldersSame(store.nodes);
        BuiltOneMore(plan, directories, d, store.nodes, store.nodes);
      }
    }
    assert directories[..|directories|] == directories;
  }

  /** No directory was made before the one it lies in. */
  ghost predicate ParentFirst(created: seq<Path>) {
    && "" !in created
    && forall k, m :: 0 <= k <= m < |created| ==> created[m] != ParentPath(created[k])
  }

  ghost predicate MadeInOrder(plan: Plan, directories: seq<Path>, d: nat, created: seq<Path>)
    requires d <= |directories|
  {
    forall path <- created :: path in directories[..d] && Housed(plan, directories[..d], path)
  }

  lemma HousedLater(plan: Plan, directories: seq<Path>, d: nat, path: Path)
    requires d < |directories| && Housed(plan, directories[..d], path)
    ensures Housed(plan, directories[..d + 1], path)
  {
    hide ParentPath, PlannedKind;
    var parent := ParentPath(path);
    if parent in directories[..d] {
      var i :| 0 <= i < d && directories[i] == parent;
      assert directories[..d + 1][i] == parent;
    }
  }

  lemma OneMoreInOrder(plan: Plan, directories: seq<Path>, d: nat, created: seq<Path>)
    requires Reachable(plan, directories) && Distinct(directories) && d < |directories|
    requires ParentFirst(created) && MadeInOrder(plan, directories, d, created)
    ensures MadeInOrder(plan, directories, d + 1, created)
    ensures PlannedKind(plan, directories[d], Missing) ==>
      ParentFirst(created + [directories[d]]) && MadeInOrder(plan, directories, d + 1, created + [directories[d]])
  {
    hide ParentPath, Reachable, Housed;
    forall p | p in created ensures p in directories[..d + 1] && Housed(plan, directories[..d + 1], p) {
      HousedLater(plan, directories, d, p);
      assert p in directories[..d];
    }
    if PlannedKind(plan, directories[d], Missing) {
      MadeInOrderWith(plan, directories, d, created);
    }
  }

  lemma MadeInOrderWith(plan: Plan, directories: seq<Path>, d: nat, created: seq<Path>)
    requires Reachable(plan, directories) && Distinct(directories) && d < |directories|
    requires PlannedKind(plan, directories[d], Missing)
    requires ParentFirst(created) && MadeInOrder(plan, directories, d, created)
    ensures ParentFirst(created + [directories[d]]) && MadeInOrder(plan, directories, d + 1, created + [directories[d]])
  {
    hide ParentPath, Reachable, Housed, PlannedKind;
    var path, all := directories[d], created + [directories[d]];
    HousedNow(plan, directories, d);
    forall p | p in all ensures p in directories[..d + 1] && Housed(plan, directories[..d + 1], p) {
      if p in created {
        HousedLater(plan, directories, d, p);
        assert p in directories[..d];
      } else {
        assert directories[..d + 1][d] == path;
        HousedLater(plan, directories, d, path);
      }
    }
    forall k, m | 0 <= k <= m < |all| ensures all[m] != ParentPath(all[k]) {
      if m == |created| {
        assert k < m ==> all[k] in created;
        NotTheParent(plan, directories, d, all[k]);
      }
    }
  }

  lemma HousedNow(plan: Plan, directories: seq<Path>, d: nat)
    requires Reachable(plan, directories) && d < |directories| && PlannedKind(plan, directories[d], Missing)
    ensures Housed(plan, directories[..d], directories[d]) && directories[d] != ""
  {
    assert directories[d] in directories;
  }

  /** A path housed among earlier directories does not lie in a later one. */
  lemma NotTheParent(plan: Plan, directories: seq<Path>, d: nat, path: Path)
    requires d < |directories| && Distinct(directories) && PlannedKind(plan, directories[d], Missing) && directories[d] != ""
    requires Housed(plan, directories[..d], path)
    ensures ParentPath(path) != directories[d]
  {
    hide ParentPath;
    var parent := ParentPath(path);
    if parent in directories[..d] {
      var i :| 0 <= i < d && directories[i] == parent;
      assert directories[i] != directories[d];
    }
  }

  lemma NothingBuilt(plan: Plan, directories: seq<Path>, nodes: Nodes)
    ensures Built(plan, directories[..0], nodes)
    ensures ParentFirst([]) && MadeInOrder(plan, directories, 0, [])
    ensures forall owner :: OwnAll(nodes, owner, [])
  {
  }

  lemma OwnedIsBuilt(nodes: Nodes, owned: Owned)
    requires IsOwned(nodes, OfDirectories, owned)
    ensures Managed(owned.path) in nodes && nodes[Managed(owned.path)].Folder?
  {
  }

  lemma NextHouse(plan: Plan, directories: seq<Path>, d: nat, before: Nodes, nodes: Nodes)
    requires Reachable(plan, directories) && PlanFits(plan, before) && FoldersKept(before, nodes)
    requires d < |directories| && Built(plan, directories[..d], nodes) && PlannedKind(plan, directories[d], Missing)
    ensures ParentPresent(nodes, Managed(directories[d])) && Managed(directories[d]) !in before
  {
    hide FoldersKept, NoNewRestore, Built, Housed, ParentPresent;
    HousePresent(plan, directories[..d], before, nodes, directories[d]);
    assert Truthful(before, FindPrecondition(plan.body.preconditions, directories[d]).value);
  }

  lemma AppendOwned(list: seq<Owned>, owned: Owned)
    ensures OwnedPaths(list + [owned]) == OwnedPaths(list) + [owned.path]
  {
  }

  lemma DirectoryIsNoTarget(plan: Plan, run: Run, path: Path, a: Nodes, b: Nodes)
    requires ItemsMatch(plan, run) && path !in EffectPaths(plan)
    requires SameBeyond(OfDirectories, path, a, b)
    ensures SameTargets(run, a, b)
  {
    forall i: nat | i < |run.items| ensures SameAt(a, b, Target(run, i)) {
      assert EffectPaths(plan)[i] in EffectPaths(plan);
      assert !Inside(OfDirectories, path, Target(run, i));
    }
  }

  // ---------------------------------------------------------------------
  // Prepare every stage
  // ---------------------------------------------------------------------

  /** The first k effects are on one side, the others still on another. */
  function Progress(n: nat, k: nat, reached: Side, waiting: Side): (view: seq<Side>)
    ensures |view| == n
    ensures forall i :: 0 <= i < n ==> view[i] == if i < k then reached else waiting
  {
    seq(n, i => if i < k then reached else waiting)
  }

  lemma ProgressAdvances(n: nat, k: nat, reached: Side, waiting: Side)
    requires k < n
    ensures Progress(n, k, reached, waiting)[k := reached] == Progress(n, k + 1, reached, waiting)
    ensures Progress(n, k, reached, waiting)[k := waiting] == Progress(n, k, reached, waiting)
  {
  }

  /** Every stage directory in the tree is owned by the run or is its orphan. */
  ghost predicate StagesAccounted(plan: Plan, nodes: Nodes, stages: seq<Owned>, orphan: Option<Place>) {
    forall path <- plan.body.stagePreconditions ::
      Stage(path) in nodes ==> path in OwnedPaths(stages) || orphan == Some(Stage(path))
  }

  ghost predicate OrphanIsStage(plan: Plan, nodes: Nodes, stages: seq<Owned>, orphan: Option<Place>) {
    orphan.Some? ==>
      && orphan.value.Stage? && orphan.value in nodes && nodes[orphan.value].Folder?
      && orphan.value.path in plan.body.stagePreconditions && orphan.value.path !in OwnedPaths(stages)
      && (forall slot :: Staged(orphan.value.path, slot) !in nodes)
  }

  ghost predicate OriginalsKnown(run: Run, originals: set<Path>, k: nat)
    requires k <= |run.items|
  {
    forall i: nat :: i < k ==> (run.items[i].path in originals <==> Target(run, i) in run.before)
  }

  /** The precondition of an effect says whether its destination is there. */
  ghost predicate ExpectationsHold(plan: Plan, run: Run) {
    forall i: nat :: i < |run.items| ==>
      var expected := FindPrecondition(plan.body.preconditions, run.items[i].path);
      expected.Some? && (expected.value.kind == File <==> Target(run, i) in run.before)
  }

  lemma StagesStay(plan: Plan, run: Run, k: nat, a: Nodes, b: Nodes)
    requires WellFormedPlan(plan) && ItemsMatch(plan, run) && k < |run.items| && SameOutsideItem(run, k, a, b)
    ensures forall j :: 0 <= j < |run.items| && j != k ==>
      SameAt(a, b, Stage(plan.body.stagePreconditions[j]))
  {
    forall j | 0 <= j < |run.items| && j != k ensures SameAt(a, b, Stage(plan.body.stagePreconditions[j])) {
      assert plan.body.stagePreconditions[j] != plan.body.stagePreconditions[k];
      assert !PlaceOf(run, k, Stage(plan.body.stagePreconditions[j]));
    }
  }

  datatype PrepareState = PrepareState(prepared: seq<Path>, stages: seq<Owned>, originals: set<Path>)

  /** The lists and the tree after the first |prepared| stages have been filled. */
  ghost predicate PrepareLists(plan: Plan, run: Run, copies: seq<Identity>, copy: Option<Identity>,
                               start: Nodes, nodes: Nodes, p: PrepareState)
  {
    var n, k := |run.items|, |p.prepared|;
    && WellFormedPlan(plan) && ItemsMatch(plan, run) && |copies| == n && k <= n
    && p.prepared == EffectPaths(plan)[..k]
    && |p.stages| == k && OwnedPaths(p.stages) == plan.body.stagePreconditions[..k]
    && OriginalsKnown(run, p.originals, k) && p.originals <= ToSet(p.prepared)
    && (forall j :: k <= j < n ==> Stage(plan.body.stagePreconditions[j]) !in nodes)
    && Confined(plan, {}, None, start, nodes)
    && copy == if k < n then None else Some(copies[n - 1])
  }

  ghost predicate Preparing(store: Store, plan: Plan, run: Run, copies: seq<Identity>, start: Nodes, p: PrepareState)
    reads store
  {
    && PrepareLists(plan, run, copies, store.flags.copy, start, store.nodes, p)
    && Tracking(store, run, copies, Progress(|run.items|, |p.prepared|, Ready, Idle))
    && store.orphan == None
  }

  /** What is left to clean up when preparation stops early. */
  ghost predicate StoppedLists(plan: Plan, run: Run, copies: seq<Identity>, start: Nodes, nodes: Nodes,
                               orphan: Option<Place>, prepared: seq<Path>, stages: seq<Owned>)
  {
    var n, k := |run.items|, |prepared|;
    && ItemsMatch(plan, run) && |copies| == n && k < n && |stages| <= n
    && prepared == EffectPaths(plan)[..k]
    && OwnedPaths(stages) == plan.body.stagePreconditions[..|stages|]
    && Confined(plan, {}, orphan, start, nodes)
    && StagesAccounted(plan, nodes, stages, orphan)
    && OrphanIsStage(plan, nodes, stages, orphan)
  }

  ghost predicate PreparationStopped(store: Store, plan: Plan, run: Run, copies: seq<Identity>, start: Nodes, p: PrepareState)
    reads store
  {
    && StoppedLists(plan, run, copies, start, store.nodes, store.orphan, p.prepared, p.stages)
    && Tracking(store, run, copies, Progress(|run.items|, |p.prepared|, Ready, Idle))
  }

  function WithStage(p: PrepareState, owned: Option<Owned>): PrepareState {
    if owned.Some? then p.(stages := p.stages + [owned.value]) else p
  }

  function WithPrepared(p: PrepareState, path: Path, hasOriginal: bool): PrepareState {
    p.(prepared := p.prepared + [path], originals := if hasOriginal then p.originals + {path} else p.originals)
  }

  lemma PreparedOne(plan: Plan, run: Run, copies: seq<Identity>, copies': seq<Identity>, copy: Option<Identity>,
                    copy': Option<Identity>, start: Nodes, before: Nodes, after: Nodes, p: PrepareState,
                    owned: Owned, hasOriginal: bool)
    requires PrepareLists(plan, run, copies, copy, start, before, p) && WellLaidOut(run)
    requires |p.prepared| < |run.items| && |copies'| == |copies|
    requires var k := |p.prepared|;
      && SameOutsideItem(run, k, before, after) && owned.path == run.items[k].stage
      && (hasOriginal <==> Target(run, k) in run.before)
      && copy' == if k < |run.items| - 1 then copy else Some(copies'[k])
    ensures PrepareLists(plan, run, copies', copy', start, after,
                         WithPrepared(WithStage(p, Some(owned)), run.items[|p.prepared|].path, hasOriginal))
  {
    var k := |p.prepared|;
    StagesStay(plan, run, k, before, after);
    ItemConfined(plan, run, k, {}, None, before, after);
    ConfinedTrans(plan, {}, {}, None, None, start, before, after);
    AppendOwned(p.stages, owned);
    assert run.items[k].path !in p.prepared by { assert EffectPaths(plan)[k] == run.items[k].path; }
    var q := WithPrepared(WithStage(p, Some(owned)), run.items[k].path, hasOriginal);
    OriginalsExtend(run, p.originals, q.originals, k);
  }

  lemma StoppedAt(plan: Plan, run: Run, copies: seq<Identity>, copy: Option<Identity>,
                  start: Nodes, before: Nodes, after: Nodes, p: PrepareState, owned: Option<Owned>, orphan: Option<Place>)
    requires PrepareLists(plan, run, copies, copy, start, before, p)
    requires |p.prepared| < |run.items|
    requires var k := |p.prepared|; var stage := run.items[k].stage;
      && SameOutsideItem(run, k, before, after)
      && (owned.Some? ==> owned.value.path == stage && orphan == None)
      && (owned.None? ==>
            if Stage(stage) in after then orphan == Some(Stage(stage)) && after[Stage(stage)].Folder? else orphan == None)
      && (owned.None? ==> forall slot :: Staged(stage, slot) !in after)
    ensures StoppedLists(plan, run, copies, start, after, orphan, p.prepared, WithStage(p, owned).stages)
  {
    var k := |p.prepared|;
    StagesStay(plan, run, k, before, after);
    ItemConfined(plan, run, k, {}, orphan, before, after);
    ConfinedTrans(plan, {}, {}, None, orphan, start, before, after);
    if owned.Some? {
      AppendOwned(p.stages, owned.value);
    }
    AccountStopped(plan, run, k, after, WithStage(p, owned).stages, orphan);
  }

  lemma OriginalsExtend(run: Run, originals: set<Path>, originals': set<Path>, k: nat)
    requires WellLaidOut(run) && k < |run.items| && OriginalsKnown(run, originals, k)
    requires run.items[k].path !in originals
    requires originals' == (if Target(run, k) in run.before then originals + {run.items[k].path} else originals)
    ensures OriginalsKnown(run, originals', k + 1)
  {
  }

  lemma AccountStopped(plan: Plan, run: Run, k: nat, nodes: Nodes, stages: seq<Owned>, orphan: Option<Place>)
    requires WellFormedPlan(plan) && ItemsMatch(plan, run) && k < |run.items|
    requires forall j :: k < j < |run.items| ==> Stage(plan.body.stagePreconditions[j]) !in nodes
    requires |stages| == k || |stages| == k + 1
    requires OwnedPaths(stages) == plan.body.stagePreconditions[..|stages|]
    requires |stages| == k && Stage(plan.body.stagePreconditions[k]) in nodes ==>
      orphan == Some(Stage(plan.body.stagePreconditions[k]))
    requires orphan.Some? ==>
      && |stages| == k && orphan.value == Stage(plan.body.stagePreconditions[k]) && orphan.value in nodes
      && nodes[orphan.value].Folder?
      && (forall slot :: Staged(orphan.value.path, slot) !in nodes)
    ensures StagesAccounted(plan, nodes, stages, orphan)
    ensures OrphanIsStage(plan, nodes, stages, orphan)
  {
    forall path | path in plan.body.stagePreconditions
      ensures Stage(path) in nodes ==> path in OwnedPaths(stages) || orphan == Some(Stage(path))
    {
      var j :| 0 <= j < |run.items| && plan.body.stagePreconditions[j] == path;
      assert j < |stages| ==> OwnedPaths(stages)[j] == path;
    }
  }

  /** Every destination and every stage has its directory. */
  ghost predicate Housing(run: Run, nodes: Nodes) {
    forall i: nat :: i < |run.items| ==>
      ParentPresent(nodes, Target(run, i)) && ParentPresent(nodes, Stage(run.items[i].stage))
  }

  lemma HousingKept(run: Run, a: Nodes, b: Nodes)
    requires Housing(run, a) && FoldersKept(a, b)
    ensures Housing(run, b)
  {
    hide FoldersKept, NoNewRestore, ParentPresent;
    forall i: nat | i < |run.items|
      ensures ParentPresent(b, Target(run, i)) && ParentPresent(b, Stage(run.items[i].stage))
    {
      ParentKept(a, b, Target(run, i));
      ParentKept(a, b, Stage(run.items[i].stage));
    }
  }

  /** The files to be replaced are the planned ones, as far as the executor compares them. */
  predicate OriginalsPlanned(plan: Plan, run: Run, verify: bool) {
    forall i: nat :: i < |run.items| ==>
      var expected := FindPrecondition(plan.body.preconditions, run.items[i].path);
      && (verify ==> expected.Some?)
      && (expected.Some? ==> AsPlanned(run, run.items[i], verify, expected.value))
  }

  method PrepareNext(store: Store, plan: Plan, content: Content, preserveMode: bool, verify: bool, p: PrepareState,
                     ghost run: Run, ghost copies: seq<Identity>, ghost start: Nodes)
    returns (result: Preparation, q: PrepareState, ghost copies': seq<Identity>)
    requires Preparing(store, plan, run, copies, start, p)
    requires ExpectationsHold(plan, run) && |p.prepared| < |run.items|
    requires run.items[|p.prepared|].bytes == content.bytes
    requires run.items[|p.prepared|].mode == content.requested - MaskedBits(store.umask, preserveMode)
    modifies store`nodes, store`nextIdentity, store`trace, store`flags, store`orphan
    ensures store.flags == old(store.flags).(copy := store.flags.copy)
    ensures result == Prepared ==>
      |q.prepared| == |p.prepared| + 1 && Preparing(store, plan, run, copies', start, q)
    ensures result != Prepared ==> PreparationStopped(store, plan, run, copies', start, q)
    ensures result == Stale ==> verify && store.orphan == None
    ensures FoldersKept(old(store.nodes), store.nodes) && NoNewRestore(old(store.nodes), store.nodes)
    ensures OwnAll(old(store.nodes), OfStages, p.stages) ==> OwnAll(store.nodes, OfStages, q.stages)
    ensures store.calm && Housing(run, old(store.nodes)) && OriginalsPlanned(plan, run, verify) ==> result == Prepared
  {
    hide FoldersKept, NoNewRestore, ParentPresent, IsOwned, OwnAll, AsPlanned, Holds, TraceOk, Planted;
    var k := |p.prepared|;
    var item := Item(plan.body.effects[k].path, plan.body.stagePreconditions[k], plan.body.effects[k].kind.Remove?,
                     content.bytes, content.requested - MaskedBits(store.umask, preserveMode));
    assert item == run.items[k] && Stage(item.stage) !in store.nodes && store.flags.copy.None?;
    var expected := FindPrecondition(plan.body.preconditions, item.path);
    assert expected.Some? && (expected.value.kind == File <==> Managed(item.path) in run.before);
    assert store.calm && Housing(run, store.nodes) && OriginalsPlanned(plan, run, verify) ==>
      ParentPresent(store.nodes, Stage(item.stage)) && AsPlanned(run, item, verify, expected.value);
    assert WellLaidOut(run) && Progress(|run.items|, k, Ready, Idle)[|run.items| - 1] == Idle;
    hide PrepareLists, StoppedLists, Tracking, WellLaidOut, ExpectationsHold, ItemsMatch, Housing, OriginalsPlanned, WellFormedPlan, FindPrecondition;
    ProgressAdvances(|run.items|, k, Ready, Idle);
    var owned, hasOriginal;
    result, owned, hasOriginal, copies' :=
      PrepareItem(store, item, expected, content.requested, preserveMode, verify,
                  run, copies, Progress(|run.items|, k, Ready, Idle), k);
    q := WithStage(p, owned);
    if OwnAll(old(store.nodes), OfStages, p.stages) {
      OwnAllKept(old(store.nodes), store.nodes, OfStages, p.stages);
      if owned.Some? {
        OwnOneMore(store.nodes, OfStages, p.stages, owned.value);
      }
    }
    if result == Prepared {
      q := WithPrepared(q, item.path, hasOriginal);
      PreparedOne(plan, run, copies, copies', old(store.flags.copy), store.flags.copy, start,
                  old(store.nodes), store.nodes, p, owned.value, hasOriginal);
    } else {
      copies' := copies;
      StoppedAt(plan, run, copies, old(store.flags.copy), start, old(store.nodes), store.nodes, p, owned, store.orphan);
    }
  }

  lemma CountsKnown(plan: Plan, run: Run, copies: seq<Identity>, copy: Option<Identity>, start: Nodes, nodes: Nodes,
                    p: PrepareState, contents: seq<Content>)
    requires PrepareLists(plan, run, copies, copy, start, nodes, p) && |contents| == |plan.body.effects|
    ensures |run.items| == |plan.body.effects| && |p.prepared| <= |contents| && |copies| == |run.items|
  {
  }

  method PrepareItems(store: Store, plan: Plan, contents: seq<Content>, preserveMode: bool, verify: bool,
                      ghost run: Run, ghost copies: seq<Identity>)
    returns (result: Preparation, p: PrepareState, ghost copies': seq<Identity>)
    requires ExpectationsHold(plan, run) && |contents| == |plan.body.effects|
    requires Preparing(store, plan, run, copies, store.nodes, PrepareState([], [], {}))
    requires run.items == ItemsOf(plan, contents, MaskedBits(store.umask, preserveMode))
    modifies store`nodes, store`nextIdentity, store`trace, store`flags, store`orphan
    ensures store.flags == old(store.flags).(copy := store.flags.copy)
    ensures result == Prepared ==>
      |p.prepared| == |run.items| && Preparing(store, plan, run, copies', old(store.nodes), p)
    ensures result != Prepared ==> PreparationStopped(store, plan, run, copies', old(store.nodes), p)
    ensures result == Stale ==> verify && store.orphan == None
    ensures FoldersKept(old(store.nodes), store.nodes) && NoNewRestore(old(store.nodes), store.nodes) && OwnAll(store.nodes, OfStages, p.stages)
    ensures store.calm && Housing(run, old(store.nodes)) && OriginalsPlanned(plan, run, verify) ==> result == Prepared
  {
    hide Planted;
    hide FoldersKept, NoNewRestore, OwnAll, Housing, OriginalsPlanned, Tracking, PrepareLists, StoppedLists;
    result, p, copies' := Prepared, PrepareState([], [], {}), copies;
    FoldersSame(store.nodes);
    NothingBuilt(plan, [], store.nodes);
    while |p.prepared| < |plan.body.effects|
      invariant store.flags == old(store.flags).(copy := store.flags.copy)
      invariant Preparing(store, plan, run, copies', old(store.nodes), p)
      invariant result == Prepared
      invariant FoldersKept(old(store.nodes), store.nodes) && NoNewRestore(old(store.nodes), store.nodes) && OwnAll(store.nodes, OfStages, p.stages)
    {
      ghost var earlier := store.nodes;
      if Housing(run, old(store.nodes)) {
        HousingKept(run, old(store.nodes), earlier);
      }
      CountsKnown(plan, run, copies', store.flags.copy, old(store.nodes), earlier, p, contents);
      result, p, copies' :=
        PrepareNext(store, plan, contents[|p.prepared|], preserveMode, verify, p, run, copies', old(store.nodes));
      ForwardTrans(old(store.nodes), earlier, store.nodes);
      if result != Prepared {
        return;
      }
    }
    CountsKnown(plan, run, copies', store.flags.copy, old(store.nodes), store.nodes, p, contents);
  }

  // ---------------------------------------------------------------------
  // Apply every effect
  // ---------------------------------------------------------------------

  /** The progress lists are prefixes of the plan, and the tree has changed between the two. */
  ghost predicate ApplyLists(plan: Plan, attempted: seq<Path>, applied: seq<Path>, reached: nat) {
    var n, a := |plan.body.effects|, |attempted|;
    && |applied| <= reached <= a <= n && a <= |applied| + 1
    && attempted == EffectPaths(plan)[..a] && applied == EffectPaths(plan)[..|applied|]
  }

  method ApplyNext(store: Store, plan: Plan, item: Item, ghost run: Run, ghost copies: seq<Identity>, ghost k: nat)
    returns (ok: bool, ghost reached: nat)
    requires ItemsMatch(plan, run) && k < |run.items| == |copies| && item == run.items[k]
    requires Tracking(store, run, copies, Progress(|run.items|, k, Changed, Ready))
    modifies store`nodes, store`trace
    ensures k <= reached <= k + 1 && (ok ==> reached == k + 1)
    ensures Tracking(store, run, copies, Progress(|run.items|, reached, Changed, Ready))
    ensures Confined(plan, {}, None, old(store.nodes), store.nodes)
    ensures FoldersKept(old(store.nodes), store.nodes) && NoNewRestore(old(store.nodes), store.nodes)
    ensures store.calm && Housing(run, old(store.nodes)) ==> ok
  {
    hide FoldersKept, NoNewRestore, ParentPresent, Holds, TraceOk, Planted;
    ProgressAdvances(|run.items|, k, Changed, Ready);
    ghost var side;
    ok, side := ApplyItem(store, item, run, copies, Progress(|run.items|, k, Changed, Ready), k);
    reached := if side == Changed then k + 1 else k;
    ItemConfined(plan, run, k, {}, None, old(store.nodes), store.nodes);
  }

  lemma NextPath(plan: Plan, k: nat)
    requires k < |plan.body.effects|
    ensures EffectPaths(plan)[..k] + [plan.body.effects[k].path] == EffectPaths(plan)[..k + 1]
  {
  }

  /** One effect and the look at the interruption flag behind it. */
  method ApplyStep(store: Store, plan: Plan, item: Item, ghost run: Run, ghost copies: seq<Identity>, ghost k: nat)
    returns (ok: bool, failure: Option<Failure>, ghost reached: nat)
    requires ItemsMatch(plan, run) && k < |run.items| == |copies| && item == run.items[k]
    requires Tracking(store, run, copies, Progress(|run.items|, k, Changed, Ready))
    modifies store`nodes, store`trace, store`interrupted
    ensures k <= reached <= k + 1 && (ok ==> reached == k + 1) && (!ok ==> failure.Some?)
    ensures failure.Some? ==> failure.value.stage == Apply && failure.value.path == Some(item.path)
    ensures Tracking(store, run, copies, Progress(|run.items|, reached, Changed, Ready))
    ensures Confined(plan, {}, None, old(store.nodes), store.nodes)
    ensures FoldersKept(old(store.nodes), store.nodes) && NoNewRestore(old(store.nodes), store.nodes)
    ensures store.calm && Housing(run, old(store.nodes)) ==> ok && (failure.Some? <==> store.interrupted)
    ensures failure.None? ==> !store.interrupted
  {
    hide FoldersKept, NoNewRestore, Housing, Tracking, Planted;
    failure := None;
    ok, reached := ApplyNext(store, plan, item, run, copies, k);
    if ok {
      var abort := store.ShouldAbort();
      if abort {
        failure := Some(Failure(Apply, Interrupted, Some(item.path)));
      }
    } else {
      failure := Some(Failure(Apply, ReplacementFailed, Some(item.path)));
    }
  }

  method ApplyItems(store: Store, plan: Plan, items: seq<Item>, ghost run: Run, ghost copies: seq<Identity>)
    returns (attempted: seq<Path>, applied: seq<Path>, failure: Option<Failure>, ghost reached: nat)
    requires ItemsMatch(plan, run) && run.items == items && |copies| == |items| && items != []
    requires Tracking(store, run, copies, Progress(|items|, |items|, Ready, Idle))
    modifies store`nodes, store`trace, store`interrupted
    ensures ApplyLists(plan, attempted, applied, reached)
    ensures Tracking(store, run, copies, Progress(|items|, reached, Changed, Ready))
    ensures failure.None? ==> |applied| == |items|
    ensures failure.Some? ==>
      && attempted != [] && failure.value.stage == Apply
      && failure.value.path == Some(attempted[|attempted| - 1])
    ensures Confined(plan, {}, None, old(store.nodes), store.nodes)
    ensures FoldersKept(old(store.nodes), store.nodes) && NoNewRestore(old(store.nodes), store.nodes)
    ensures store.calm && Housing(run, old(store.nodes)) ==> (failure.Some? <==> store.interrupted)
  {
    hide FoldersKept, NoNewRestore, Housing, Tracking, Planted;
    attempted, applied, failure, reached := [], [], None, 0;
    FoldersSame(store.nodes);
    ghost var calm := store.calm && Housing(run, store.nodes);
    assert Progress(|items|, 0, Changed, Ready) == Progress(|items|, |items|, Ready, Idle);
    while failure.None? && |attempted| < |items|
      invariant reached <= |items| && ApplyLists(plan, attempted, applied, reached)
      invariant Tracking(store, run, copies, Progress(|items|, reached, Changed, Ready))
      invariant failure.None? ==> |attempted| == |applied| == reached
      invariant failure.Some? ==>
        attempted != [] && failure.value.stage == Apply && failure.value.path == Some(attempted[|attempted| - 1])
      invariant Confined(plan, {}, None, old(store.nodes), store.nodes)
      invariant FoldersKept(old(store.nodes), store.nodes) && NoNewRestore(old(store.nodes), store.nodes)
      invariant failure.None? && attempted != [] ==> !store.interrupted
      invariant calm && failure.Some? ==> store.interrupted
      decreases |items| - |attempted|
    {
      ghost var earlier := store.nodes;
      if calm {
        HousingKept(run, old(store.nodes), earlier);
      }
      var item := items[|attempted|];
      NextPath(plan, |attempted|);
      attempted := attempted + [item.path];
      var ok;
      ok, failure, reached := ApplyStep(store, plan, item, run, copies, reached);
      ConfinedTrans(plan, {}, {}, None, None, old(store.nodes), earlier, store.nodes);
      ForwardTrans(old(store.nodes), earlier, store.nodes);
      if ok {
        applied := applied + [item.path];
      }
    }
  }
}
