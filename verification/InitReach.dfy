/**
 A planned Init run can reach every path it changes: each destination and its stage lies in
 the root, in a directory the plan saw, or in one the run creates before it needs it
 (packages/core/src/init.ts:337-342, 725-909).
 */
module InitReach {
  import opened Foundations
  import opened MutationModel
  import opened MutationPlan
  import opened MutationScope
  import opened InitPlan
  import opened StagePaths

  const TEMPLATE: Path := "specs/stories/_template"

  lemma RootNames()
    ensures '/' !in "specs" && '/' !in "stories" && '/' !in "_template" && '/' !in "guidance" && '/' !in "AGENTS.md"
  {
  }

  lemma AtRoot(name: string)
    requires '/' !in name
    ensures ParentPath(name) == ""
  {
    SeparatorIsUnique(name, -1);
  }

  lemma DirectoryParents()
    ensures ParentPath("specs") == "" && ParentPath("specs/stories") == "specs"
    ensures ParentPath(TEMPLATE) == "specs/stories" && ParentPath("guidance") == ""
  {
    RootNames();
    AtRoot("specs");
    AtRoot("guidance");
    ParentOfChild("specs", "stories");
    assert "specs" + "/" + "stories" == "specs/stories";
    ParentOfChild("specs/stories", "_template");
    assert "specs/stories" + "/" + "_template" == TEMPLATE;
  }

  lemma StoryParents()
    ensures ParentPath(STORY) == TEMPLATE && ParentPath(TASK) == TEMPLATE
  {
    ParentOfChild(TEMPLATE, "story.md");
    assert TEMPLATE + "/" + "story.md" == STORY;
    ParentOfChild(TEMPLATE, "task.md");
    assert TEMPLATE + "/" + "task.md" == TASK;
  }

  lemma AcceptanceParent()
    ensures ParentPath(ACCEPTANCE) == TEMPLATE
  {
    ParentOfChild(TEMPLATE, "acceptance.md");
    assert TEMPLATE + "/" + "acceptance.md" == ACCEPTANCE;
  }

  lemma EntryParent()
    ensures ParentPath(ENTRY) == "guidance"
  {
    ParentOfChild("guidance", "ENTRY.md");
    assert "guidance" + "/" + "ENTRY.md" == ENTRY;
  }

  lemma PrinciplesParent()
    ensures ParentPath(PRINCIPLES) == "guidance"
  {
    ParentOfChild("guidance", "PRINCIPLES.md");
    assert "guidance" + "/" + "PRINCIPLES.md" == PRINCIPLES;
  }

  lemma DecisionsParent()
    ensures ParentPath(DECISIONS) == "guidance"
  {
    ParentOfChild("guidance", "DECISIONS.md");
    assert "guidance" + "/" + "DECISIONS.md" == DECISIONS;
  }

  lemma PracticesParent()
    ensures ParentPath(PRACTICES) == "guidance"
  {
    ParentOfChild("guidance", "PRACTICES.md");
    assert "guidance" + "/" + "PRACTICES.md" == PRACTICES;
  }

  lemma RootParents()
    ensures ParentPath("AGENTS.md") == ""
    ensures ParentPath(LEGACY_MARKER) == "specs" && ParentPath(ADOPTION_MARKER) == "specs"
  {
    RootNames();
    AtRoot("AGENTS.md");
    ParentOfChild("specs", ".forgeflow-adoption");
    assert "specs" + "/" + ".forgeflow-adoption" == LEGACY_MARKER;
    ParentOfChild("specs", ".praxisbound-adoption");
    assert "specs" + "/" + ".praxisbound-adoption" == ADOPTION_MARKER;
  }

  /** The directory of a destination is one of those the mode manages. */
  lemma DestinationParents(mode: InitMode, path: Path)
    requires path in Destinations(mode)
    ensures ParentPath(path) == "" || ParentPath(path) in Directories(mode)
  {
    hide ParentPath;
    StoryParents();
    AcceptanceParent();
    EntryParent();
    PrinciplesParent();
    DecisionsParent();
    PracticesParent();
    RootParents();
    assert path in Payloads(mode) || path == LEGACY_MARKER || path == ADOPTION_MARKER;
  }

  /** A directory is managed only after the one it lies in. */
  lemma EarlierParent(mode: InitMode, d: nat)
    requires d < |Directories(mode)|
    ensures var parent := ParentPath(Directories(mode)[d]); parent == "" || parent in Directories(mode)[..d]
  {
    hide ParentPath;
    DirectoryParents();
    var earlier := Directories(mode)[..d];
    if d == 1 {
      assert earlier[0] == "specs";
    } else if d == 2 {
      assert earlier[1] == "specs/stories";
    }
  }

  // ---------------------------------------------------------------------
  // A file in the place of a directory
  // ---------------------------------------------------------------------

  /** The observer does not look below a managed directory that turns out to be a file. */
  predicate Blocks(mode: InitMode, observed: seq<PathObservation>) {
    forall directory <- Directories(mode), path <- Destinations(mode) ::
      KindOf(observed, directory) == Some(File) && directory + "/" <= path ==> KindOf(observed, path) == Some(Unconfirmable)
  }

  lemma MarkerBelow()
    ensures "specs" + "/" <= ADOPTION_MARKER && "specs/stories" + "/" <= STORY
  {
  }

  lemma EntryBelow()
    ensures TEMPLATE + "/" <= STORY && "guidance" + "/" <= ENTRY
  {
  }

  lemma SomethingBelow(mode: InitMode, directory: Path) returns (path: Path)
    requires directory in Directories(mode)
    ensures path in Destinations(mode) && directory + "/" <= path
  {
    MarkerBelow();
    EntryBelow();
    path := if directory == "specs" then ADOPTION_MARKER else if directory == "guidance" then ENTRY else STORY;
    assert Payloads(mode)[0] in Destinations(mode) && Payloads(mode)[1] in Destinations(mode);
    assert Destinations(mode)[|Destinations(mode)| - 1] == ADOPTION_MARKER;
  }

  /** So a plan is made only when every managed directory is one or is missing. */
  lemma NoFileAmongDirectories(mode: InitMode, snapshot: InitSnapshot, observed: seq<PathObservation>, path: Path)
    requires Screen(mode, snapshot, observed).None? && Blocks(mode, observed) && path in Directories(mode)
    ensures KindOf(observed, path) == Some(Directory) || KindOf(observed, path) == Some(Missing)
  {
    hide Directories, Destinations, Screen;
    ScreenedPaths(mode, snapshot, observed);
    assert !UnsafeDirectory(observed, path);
    var below := SomethingBelow(mode, path);
    assert !UnsafeDestination(observed, below);
  }

  lemma {:induction false} FindIn(entries: seq<PathObservation>, i: nat)
    requires i < |entries| && forall j :: 0 <= j < i ==> entries[j].path != entries[i].path
    ensures FindPrecondition(entries, entries[i].path) == Some(entries[i])
  {
    if i > 0 {
      FindIn(entries[1..], i - 1);
    }
  }

  lemma CapturedFound(observed: seq<PathObservation>, managed: seq<Path>, i: nat)
    requires forall p <- managed :: FindPrecondition(observed, p).Some?
    requires Distinct(managed) && i < |managed|
    ensures FindPrecondition(Captured(observed, managed), managed[i]) == FindPrecondition(observed, managed[i])
  {
    FindIn(Captured(observed, managed), i);
  }

  // ---------------------------------------------------------------------
  // Which plans can be carried out
  // ---------------------------------------------------------------------

  /** What lies above a path is not observed as a file. */
  predicate ParentOpen(observed: seq<PathObservation>, path: Path) {
    ParentPath(path) == "" || KindOf(observed, ParentPath(path)) != Some(File)
  }

  /** No file is in the place of a directory that an effect or a missing directory needs. */
  predicate ParentsOpen(mode: InitMode, observed: seq<PathObservation>) {
    && (forall path <- EffectDestinations(mode, observed) :: ParentOpen(observed, path))
    && (forall path <- Directories(mode) :: KindOf(observed, path) == Some(Missing) ==> ParentOpen(observed, path))
  }

  /** The plan has every managed path as it was observed, each directory as one, as missing, or as a file. */
  predicate PlannedAsSeen(plan: Plan, mode: InitMode, observed: seq<PathObservation>) {
    && (forall path <- Directories(mode) :: FindPrecondition(plan.body.preconditions, path) == FindPrecondition(observed, path))
    && (forall path <- Directories(mode) :: KindOf(observed, path).Some? && KindOf(observed, path).value in {Directory, Missing, File})
  }

  lemma SeenKinds(plan: Plan, mode: InitMode, snapshot: InitSnapshot, observed: seq<PathObservation>)
    requires Screen(mode, snapshot, observed).None?
    requires forall path <- Directories(mode) + Destinations(mode) :: FindPrecondition(observed, path).Some?
    requires plan.body.preconditions == Captured(observed, Directories(mode) + Destinations(mode))
    ensures PlannedAsSeen(plan, mode, observed)
  {
    hide Directories, Destinations, Screen, FindPrecondition;
    ManagedPathsDiffer(mode);
    DistinctParts(Directories(mode), Destinations(mode));
    ScreenedPaths(mode, snapshot, observed);
    forall path | path in Directories(mode)
      ensures FindPrecondition(plan.body.preconditions, path) == FindPrecondition(observed, path)
      ensures KindOf(observed, path).Some? && KindOf(observed, path).value in {Directory, Missing, File}
    {
      var i :| 0 <= i < |Directories(mode)| && Directories(mode)[i] == path;
      assert (Directories(mode) + Destinations(mode))[i] == path;
      CapturedFound(observed, Directories(mode) + Destinations(mode), i);
      assert !UnsafeDirectory(observed, path);
    }
  }

  /** With a managed directory above it, a path is housed exactly if no file is in that directory's place. */
  lemma HousedIff(plan: Plan, mode: InitMode, observed: seq<PathObservation>, directories: seq<Path>, path: Path)
    requires PlannedAsSeen(plan, mode, observed) && forall d <- directories :: d in Directories(mode)
    requires ParentPath(path) == "" || ParentPath(path) in directories
    ensures Housed(plan, directories, path) <==> ParentOpen(observed, path)
  {
    hide Directories, FindPrecondition, ParentPath;
  }

  lemma DirectoriesNamed(mode: InitMode)
    ensures "" !in Directories(mode)
  {
    DirectoryLengths();
  }

  lemma StageHoused(plan: Plan, mode: InitMode, seed: string, path: Path)
    requires ValidSeed(seed)
    ensures Housed(plan, Directories(mode), StagePath(STAGE_TAG, path, seed)) <==> Housed(plan, Directories(mode), path)
  {
    hide Directories, PlannedKind, ParentPath;
    StageMark(STAGE_TAG, seed);
    BesideNameParent(path, STAGE_TAG + seed[..16] + "-");
  }

  lemma DirectoriesHoused(plan: Plan, mode: InitMode, observed: seq<PathObservation>, d: nat)
    requires PlannedAsSeen(plan, mode, observed) && d < |Directories(mode)|
    ensures PlannedKind(plan, Directories(mode)[d], Missing) <==> KindOf(observed, Directories(mode)[d]) == Some(Missing)
    ensures Housed(plan, Directories(mode)[..d], Directories(mode)[d]) <==> ParentOpen(observed, Directories(mode)[d])
  {
    hide Directories, FindPrecondition, ParentPath, Housed, ParentOpen;
    assert Directories(mode)[d] in Directories(mode);
    EarlierParent(mode, d);
    HousedIff(plan, mode, observed, Directories(mode)[..d], Directories(mode)[d]);
  }

  lemma ReachableIff(plan: Plan, mode: InitMode, observed: seq<PathObservation>, seed: string)
    requires ValidSeed(seed) && PlannedAsSeen(plan, mode, observed)
    requires EffectPaths(plan) == EffectDestinations(mode, observed)
    requires plan.body.stagePreconditions == Stages(EffectPaths(plan), seed)
    ensures Reachable(plan, Directories(mode)) <==> ParentsOpen(mode, observed)
  {
    hide PlannedKind, Destinations, Housed, ParentPath, Directories, ParentOpen, EffectDestinations, PlannedAsSeen, KindOf, StagePath;
    DirectoriesNamed(mode);
    ManagedPathsDiffer(mode);
    DistinctParts(Directories(mode), Destinations(mode));
    EffectsAreDestinations(mode, observed);
    forall d | 0 <= d < |Directories(mode)|
      ensures PlannedKind(plan, Directories(mode)[d], Missing) <==> KindOf(observed, Directories(mode)[d]) == Some(Missing)
      ensures Housed(plan, Directories(mode)[..d], Directories(mode)[d]) <==> ParentOpen(observed, Directories(mode)[d])
    {
      DirectoriesHoused(plan, mode, observed, d);
    }
    forall path | path in EffectPaths(plan)
      ensures Housed(plan, Directories(mode), path) <==> ParentOpen(observed, path)
      ensures Housed(plan, Directories(mode), StagePath(STAGE_TAG, path, seed)) <==> Housed(plan, Directories(mode), path)
    {
      DestinationParents(mode, path);
      HousedIff(plan, mode, observed, Directories(mode), path);
      StageHoused(plan, mode, seed, path);
    }
    StagesOf(EffectPaths(plan), seed);
  }

  lemma StagesOf(paths: seq<Path>, seed: string)
    requires ValidSeed(seed)
    ensures forall stage <- Stages(paths, seed) :: exists path :: path in paths && stage == StagePath(STAGE_TAG, path, seed)
  {
    forall stage | stage in Stages(paths, seed)
      ensures exists path :: path in paths && stage == StagePath(STAGE_TAG, path, seed)
    {
      var i :| 0 <= i < |paths| && Stages(paths, seed)[i] == stage;
      assert paths[i] in paths;
    }
  }

  lemma PlanParts(mode: InitMode, rootIdentity: Identity, snapshot: InitSnapshot, observed: seq<PathObservation>, seed: string)
    requires ValidSeed(seed) && PlanMutation(mode, rootIdentity, snapshot, observed, seed).Preview?
    ensures var plan := PlanMutation(mode, rootIdentity, snapshot, observed, seed).plan;
      && Screen(mode, snapshot, observed).None?
      && (forall path <- Directories(mode) + Destinations(mode) :: FindPrecondition(observed, path).Some?)
      && plan.body.preconditions == Captured(observed, Directories(mode) + Destinations(mode))
      && EffectPaths(plan) == EffectDestinations(mode, observed)
      && plan.body.stagePreconditions == Stages(EffectPaths(plan), seed)
  {
    hide Directories, Destinations, Stages, Screen, EffectDestinations, AdoptionMarker, PayloadDigest, KindOf;
    ScreenedObservations(mode, snapshot, observed);
    var plan := PlanMutation(mode, rootIdentity, snapshot, observed, seed).plan;
    assert EffectPaths(plan) == EffectDestinations(mode, observed);
  }

  /** The paths of a plan can be reached exactly if no file is in the place of a directory it needs. */
  lemma PlanIsReachableIff(mode: InitMode, rootIdentity: Identity, snapshot: InitSnapshot,
                           observed: seq<PathObservation>, seed: string)
    requires ValidSeed(seed) && PlanMutation(mode, rootIdentity, snapshot, observed, seed).Preview?
    ensures Reachable(PlanMutation(mode, rootIdentity, snapshot, observed, seed).plan, Directories(mode)) <==>
            ParentsOpen(mode, observed)
  {
    hide *;
    var plan := PlanMutation(mode, rootIdentity, snapshot, observed, seed).plan;
    PlanParts(mode, rootIdentity, snapshot, observed, seed);
    SeenKinds(plan, mode, snapshot, observed);
    ReachableIff(plan, mode, observed, seed);
  }

  /** The paths of a plan made from what the observer reports can be reached. */
  lemma PlanIsReachable(mode: InitMode, rootIdentity: Identity, snapshot: InitSnapshot,
                        observed: seq<PathObservation>, seed: string)
    requires ValidSeed(seed) && Blocks(mode, observed)
    requires PlanMutation(mode, rootIdentity, snapshot, observed, seed).Preview?
    ensures Reachable(PlanMutation(mode, rootIdentity, snapshot, observed, seed).plan, Directories(mode))
  {
    hide *;
    PlanParts(mode, rootIdentity, snapshot, observed, seed);
    BlockedIsOpen(mode, snapshot, observed);
    PlanIsReachableIff(mode, rootIdentity, snapshot, observed, seed);
  }

  lemma BlockedIsOpen(mode: InitMode, snapshot: InitSnapshot, observed: seq<PathObservation>)
    requires Screen(mode, snapshot, observed).None? && Blocks(mode, observed)
    ensures ParentsOpen(mode, observed)
  {
    hide Screen, Blocks, Directories, Destinations, ParentPath, KindOf, EffectDestinations;
    ManagedPathsDiffer(mode);
    DistinctParts(Directories(mode), Destinations(mode));
    EffectsAreDestinations(mode, observed);
    forall path | path in Directories(mode) ensures KindOf(observed, path) != Some(File) {
      NoFileAmongDirectories(mode, snapshot, observed, path);
    }
    forall path | path in EffectDestinations(mode, observed) ensures ParentOpen(observed, path) {
      DestinationParents(mode, path);
    }
    forall path | path in Directories(mode) ensures ParentOpen(observed, path) {
      var d :| 0 <= d < |Directories(mode)| && Directories(mode)[d] == path;
      EarlierParent(mode, d);
    }
  }

  // ---------------------------------------------------------------------
  // A plan that cannot be carried out
  // ---------------------------------------------------------------------

  /** Nothing is there but a file named "guidance". */
  function OnlyGuidance(mode: InitMode): (observed: seq<PathObservation>)
    ensures |observed| == |Directories(mode) + Destinations(mode)|
    ensures forall i :: 0 <= i < |observed| ==>
      var path := (Directories(mode) + Destinations(mode))[i];
      observed[i] == Plain(path, if path == "guidance" then File else Missing)
  {
    var managed := Directories(mode) + Destinations(mode);
    seq(|managed|, i requires 0 <= i < |managed| => Plain(managed[i], if managed[i] == "guidance" then File else Missing))
  }

  lemma GuidanceSeen(mode: InitMode)
    ensures Unique(ObservedPaths(OnlyGuidance(mode)))
    ensures forall path <- Directories(mode) + Destinations(mode) ::
      FindPrecondition(OnlyGuidance(mode), path) == Some(Plain(path, if path == "guidance" then File else Missing))
  {
    hide Directories, Destinations, FindPrecondition;
    ManagedPathsDiffer(mode);
    var managed, observed := Directories(mode) + Destinations(mode), OnlyGuidance(mode);
    assert ObservedPaths(observed) == managed;
    UniqueIffDistinct(managed);
    forall path | path in managed
      ensures FindPrecondition(observed, path) == Some(Plain(path, if path == "guidance" then File else Missing))
    {
      var i :| 0 <= i < |managed| && managed[i] == path;
      FindIn(observed, i);
    }
  }

  /** The planner of `init` takes a file in the place of a managed directory; the plan cannot be carried out. */
  lemma FileInPlaceOfDirectory(rootIdentity: Identity, snapshot: InitSnapshot, seed: string)
    requires ValidSnapshot(snapshot) && ValidSeed(seed)
    ensures var result := PlanMutation(Safe, rootIdentity, snapshot, OnlyGuidance(Safe), seed);
      result.Preview? && !Reachable(result.plan, Directories(Safe))
  {
    GuidanceIsAccepted(snapshot);
    GuidanceIsClosed();
    PlanIsReachableIff(Safe, rootIdentity, snapshot, OnlyGuidance(Safe), seed);
  }

  lemma GuidanceIsAccepted(snapshot: InitSnapshot)
    requires ValidSnapshot(snapshot)
    ensures Screen(Safe, snapshot, OnlyGuidance(Safe)).None?
  {
    hide Directories, Destinations, ValidSnapshot, FindPrecondition, UnsafeDirectory, UnsafeDestination, OnlyGuidance;
    GuidanceSeen(Safe);
    var observed := OnlyGuidance(Safe);
    forall path | path in Directories(Safe) ensures !UnsafeDirectory(observed, path) {
      DirectoryIsSafe(observed, path);
    }
    forall path | path in Destinations(Safe) ensures !UnsafeDestination(observed, path) && KindOf(observed, path) != Some(File) {
      DestinationIsMissing(observed, path);
    }
  }

  lemma DirectoryIsSafe(observed: seq<PathObservation>, path: Path)
    requires FindPrecondition(observed, path) == Some(Plain(path, if path == "guidance" then File else Missing))
    ensures !UnsafeDirectory(observed, path)
  {
  }

  lemma DestinationIsMissing(observed: seq<PathObservation>, path: Path)
    requires path in Destinations(Safe)
    requires FindPrecondition(observed, path) == Some(Plain(path, if path == "guidance" then File else Missing))
    ensures !UnsafeDestination(observed, path) && KindOf(observed, path) != Some(File)
  {
    hide Destinations, FindPrecondition;
    ManagedPathsDiffer(Safe);
    assert |path| != |"guidance"|;
  }

  lemma GuidanceIsClosed()
    ensures !ParentsOpen(Safe, OnlyGuidance(Safe))
  {
    hide FindPrecondition, ParentPath, OnlyGuidance;
    GuidanceSeen(Safe);
    EntryParent();
    assert "guidance" == Directories(Safe)[3] && "guidance" in Directories(Safe) + Destinations(Safe);
    assert ENTRY == FRESH_PAYLOADS[4] && ENTRY == Destinations(Safe)[4];
    assert ENTRY in EffectDestinations(Safe, OnlyGuidance(Safe));
    assert !ParentOpen(OnlyGuidance(Safe), ENTRY);
  }
}
