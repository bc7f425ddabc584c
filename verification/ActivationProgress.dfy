/**
 An Activation plan made from the tree as it is can be carried out on that tree: it is up to
 date, its paths can be reached, and the legacy directory holds only what the plan removes
 (packages/core/src/activation.ts:559-569, 622-1085).
 */
module ActivationProgress {
  import opened MutationModel
  import opened MutationStore
  import opened MutationPlan
  import opened MutationPhases
  import opened MutationCurrent
  import opened MutationVerdict
  import opened StagePaths
  import opened ActivationScope
  import opened ActivationReady
  import opened ActivationPlan
  import opened ActivationPlanned
  import opened ActivationTree
  import opened DirectoryNames
  import Executor = ActivationMutation

  // ---------------------------------------------------------------------
  // Parents
  // ---------------------------------------------------------------------

  lemma AgentsParent()
    ensures ParentPath(AGENTS) == "" && '/' !in AGENTS
  {
    SeparatorIsUnique(AGENTS, -1);
  }

  lemma DestinationParent(path: Path)
    requires path in DESTINATIONS
    ensures path == AGENTS || ParentPath(path) == SKILL_DIRECTORY
    ensures path == AGENTS ==> ParentPath(path) == ""
  {
    hide ParentPath;
    AgentsParent();
    SkillParents();
  }

  lemma LegacyRest(path: Path)
    requires path in LEGACY_DESTINATIONS
    ensures LEGACY_DIRECTORY + "/" <= path && '/' !in path[|LEGACY_DIRECTORY| + 1..]
  {
    ScopeLengths();
    LegacyLengths();
    LegacyRests();
  }

  lemma LegacyRests()
    ensures LEGACY_SKILL == LEGACY_DIRECTORY + "/" + "SKILL.md" && '/' !in "SKILL.md"
    ensures LEGACY_WORKFLOW == LEGACY_DIRECTORY + "/" + "story-development.md" && '/' !in "story-development.md"
    ensures LEGACY_SNAPSHOT == LEGACY_DIRECTORY + "/" + ".forgeflow-snapshot" && '/' !in ".forgeflow-snapshot"
  {
    assert LEGACY_DIRECTORY + "/SKILL.md" == LEGACY_DIRECTORY + "/" + "SKILL.md";
    assert LEGACY_DIRECTORY + "/story-development.md" == LEGACY_DIRECTORY + "/" + "story-development.md";
    assert LEGACY_DIRECTORY + "/.forgeflow-snapshot" == LEGACY_DIRECTORY + "/" + ".forgeflow-snapshot";
  }

  lemma NoSlash(a: string, b: string, c: string, d: string)
    requires '/' !in a && '/' !in b && '/' !in c && '/' !in d
    ensures '/' !in a + b + c + d
  {
  }

  lemma SeedPart(seed: string)
    requires ValidSeed(seed)
    ensures '/' !in seed[..16]
  {
  }

  lemma StageWords()
    ensures '/' !in STAGE_TAG && '/' !in "-forgeflow-"
    ensures ".agents/skills/" == ".agents/skills" + "/"
  {
  }

  lemma Regroup(directory: Path, a: string, b: string, c: string, d: string)
    ensures (directory + "/") + a + b + c + d == directory + "/" + (a + b + c + d)
  {
  }

  /** The stage of a legacy file lies beside the legacy directory. */
  lemma LegacyStageParent(path: Path, seed: string)
    requires ValidSeed(seed) && path in LEGACY_DESTINATIONS
    ensures ParentPath(StageFor(path, seed)) == ".agents/skills"
  {
    hide ParentPath;
    LegacyRest(path);
    StageWords();
    SeedPart(seed);
    var rest := path[|LEGACY_DIRECTORY| + 1..];
    NoSlash(STAGE_TAG, seed[..16], "-forgeflow-", rest);
    Regroup(".agents/skills", STAGE_TAG, seed[..16], "-forgeflow-", rest);
    ParentOfChild(".agents/skills", STAGE_TAG + seed[..16] + "-forgeflow-" + rest);
  }

  lemma NotBelowLegacy(path: Path)
    requires path in DESTINATIONS
    ensures !(LEGACY_DIRECTORY + "/" <= path)
  {
    ScopeLengths();
    FileLengths();
    assert (LEGACY_DIRECTORY + "/")[15] == LEGACY_DIRECTORY[15] == 'f' && SKILL_DIRECTORY[15] == 'p';
    assert SKILL[15] == SKILL_DIRECTORY[15] && WORKFLOW[15] == SKILL_DIRECTORY[15] && SNAPSHOT[15] == SKILL_DIRECTORY[15];
  }

  /** The stage of an installed file lies beside it. */
  lemma DestinationStageParent(path: Path, seed: string)
    requires ValidSeed(seed) && path in DESTINATIONS
    ensures ParentPath(StageFor(path, seed)) == ParentPath(path)
  {
    hide ParentPath;
    NotBelowLegacy(path);
    StageMark(STAGE_TAG, seed);
    BesideNameParent(path, STAGE_TAG + seed[..16] + "-");
  }

  // ---------------------------------------------------------------------
  // Reaching every path
  // ---------------------------------------------------------------------

  lemma DirectoryPlanned(q: Request, path: Path)
    requires Accepted(q) && path in DIRECTORIES
    ensures PlannedKind(q.plan, path, Directory) || PlannedKind(q.plan, path, Missing)
  {
    hide PlanActivation, PayloadMap, Payloads, Executor.ContentFor, FirstProblem, DirectoryProblemAt, Accepted, Seen;
    RequestFacts(q);
    Screened(q.source, Paths(q));
    Preconditions(q);
    ObservedCovers(q.looks, q.before);
    KnownDirectory(path, EntryAt(Paths(q), path));
    RecordedFound(Paths(q), path);
  }

  lemma RecordedFound(paths: seq<PathObservation>, path: Path)
    requires Covered(paths) && path in SCOPE
    ensures FindPrecondition(Recorded(paths, true), path).Some?
    ensures FindPrecondition(Recorded(paths, true), path).value.kind == EntryAt(paths, path).kind
  {
    SurfaceIsScope(paths);
    var entry := EntryRecorded(paths, path);
    FoundUnique(Recorded(paths, true), entry);
  }

  lemma HousedIn(plan: Plan, directories: seq<Path>, path: Path)
    requires ParentPath(path) == "" || ParentPath(path) in directories || PlannedKind(plan, ParentPath(path), Directory)
    requires forall directory <- directories :: PlannedKind(plan, directory, Directory) || PlannedKind(plan, directory, Missing)
    ensures Housed(plan, directories, path)
  {
    hide ParentPath;
  }

  lemma CreatedHoused(plan: Plan, d: nat)
    requires d < |CREATED_DIRECTORIES|
    requires forall path <- CREATED_DIRECTORIES :: PlannedKind(plan, path, Directory) || PlannedKind(plan, path, Missing)
    ensures Housed(plan, CREATED_DIRECTORIES[..d], CREATED_DIRECTORIES[d])
  {
    hide ParentPath, PlannedKind, Housed;
    CreatedParents();
    var earlier := CREATED_DIRECTORIES[..d];
    assert d >= 1 ==> earlier[0] == ".agents";
    assert d >= 2 ==> earlier[1] == ".agents/skills";
    assert forall path <- earlier :: path in CREATED_DIRECTORIES;
    HousedIn(plan, earlier, CREATED_DIRECTORIES[d]);
  }

  lemma PathHoused(plan: Plan, path: Path, seed: string)
    requires ValidSeed(seed) && (path in DESTINATIONS || path in LEGACY_DESTINATIONS)
    requires path in LEGACY_DESTINATIONS ==> PlannedKind(plan, LEGACY_DIRECTORY, Directory)
    requires forall p <- CREATED_DIRECTORIES :: PlannedKind(plan, p, Directory) || PlannedKind(plan, p, Missing)
    ensures Housed(plan, CREATED_DIRECTORIES, path) && Housed(plan, CREATED_DIRECTORIES, StageFor(path, seed))
  {
    hide ParentPath, PlannedKind, Housed, StageFor;
    assert CREATED_DIRECTORIES[1] == ".agents/skills" && CREATED_DIRECTORIES[2] == SKILL_DIRECTORY;
    if path in DESTINATIONS {
      DestinationParent(path);
      DestinationStageParent(path, seed);
    } else {
      LegacyParents();
      LegacyStageParent(path, seed);
    }
    HousedIn(plan, CREATED_DIRECTORIES, path);
    HousedIn(plan, CREATED_DIRECTORIES, StageFor(path, seed));
  }

  lemma PlanStages(q: Request)
    requires Accepted(q)
    ensures ValidSeed(q.seed) && q.plan.body.stagePreconditions == StagesFor(EffectPaths(q.plan), q.seed)
  {
    hide FirstProblem, Payloads, EffectsFor, StageFor, Seen, Recorded;
    assert Reason(FirstProblem(q.source, Paths(q)));
    PathsOfPlan(q.plan);
  }

  lemma PlannedAmong(legacy: bool)
    ensures forall path <- PlannedPaths(legacy) :: path in DESTINATIONS || (legacy && path in LEGACY_DESTINATIONS)
  {
  }

  lemma LegacyPlanned(q: Request)
    requires Accepted(q) && LegacyInstalled(Paths(q))
    ensures PlannedKind(q.plan, LEGACY_DIRECTORY, Directory)
  {
    hide PlanActivation, Accepted, Seen;
    Preconditions(q);
    ObservedCovers(q.looks, q.before);
    assert LEGACY_DIRECTORY in DIRECTORIES;
    RecordedFound(Paths(q), LEGACY_DIRECTORY);
  }

  lemma CreatedNamed()
    ensures "" !in CREATED_DIRECTORIES && forall path <- CREATED_DIRECTORIES :: path in DIRECTORIES
  {
    ScopeLengths();
  }

  /** The paths of a plan made from the tree can be reached. */
  lemma PlanIsReachable(q: Request)
    requires Accepted(q)
    ensures Reachable(q.plan, CREATED_DIRECTORIES)
  {
    hide PlanActivation, Accepted, Observed, Housed, PlannedKind, StageFor, LegacyInstalled, PlannedPaths;
    CreatedNamed();
    forall path | path in CREATED_DIRECTORIES
      ensures PlannedKind(q.plan, path, Directory) || PlannedKind(q.plan, path, Missing)
    {
      DirectoryPlanned(q, path);
    }
    forall d | 0 <= d < |CREATED_DIRECTORIES| ensures Housed(q.plan, CREATED_DIRECTORIES[..d], CREATED_DIRECTORIES[d]) {
      CreatedHoused(q.plan, d);
    }
    RequestPaths(q);
    PlanStages(q);
    PlannedAmong(LegacyInstalled(Paths(q)));
    if LegacyInstalled(Paths(q)) {
      LegacyPlanned(q);
    }
    forall path | path in EffectPaths(q.plan)
      ensures Housed(q.plan, CREATED_DIRECTORIES, path) && Housed(q.plan, CREATED_DIRECTORIES, StageFor(path, q.seed))
    {
      PathHoused(q.plan, path, q.seed);
    }
    forall stage | stage in q.plan.body.stagePreconditions ensures Housed(q.plan, CREATED_DIRECTORIES, stage) {
      var i :| 0 <= i < |EffectPaths(q.plan)| && StagesFor(EffectPaths(q.plan), q.seed)[i] == stage;
      assert EffectPaths(q.plan)[i] in EffectPaths(q.plan);
    }
  }

  // ---------------------------------------------------------------------
  // Leaving nothing in the legacy directory
  // ---------------------------------------------------------------------

  lemma EffectElsewhere(q: Request, i: nat)
    requires Accepted(q) && i < |q.plan.body.effects| && ParentPath(q.plan.body.effects[i].path) == LEGACY_DIRECTORY
    ensures q.plan.body.effects[i].kind.Remove?
  {
    hide Accepted, ParentPath;
    if q.plan.body.effects[i].path in DESTINATIONS {
      DestinationElsewhere(q.plan.body.effects[i].path);
    }
    OnlyLegacyRemoved(q, i);
  }

  lemma StagesElsewhere(q: Request)
    requires Accepted(q)
    ensures forall stage <- q.plan.body.stagePreconditions :: ParentPath(stage) != LEGACY_DIRECTORY
  {
    hide Accepted, Observed, StageFor, ParentPath, PlannedPaths, LegacyInstalled;
    RequestPaths(q);
    PlanStages(q);
    PlannedAmong(LegacyInstalled(Paths(q)));
    forall stage | stage in q.plan.body.stagePreconditions ensures ParentPath(stage) != LEGACY_DIRECTORY {
      var i :| 0 <= i < |EffectPaths(q.plan)| && StagesFor(EffectPaths(q.plan), q.seed)[i] == stage;
      assert EffectPaths(q.plan)[i] in EffectPaths(q.plan);
      StageElsewhere(EffectPaths(q.plan)[i], q.seed);
    }
  }

  lemma NothingPutThere(q: Request)
    requires Accepted(q)
    ensures LeavesLegacy(q.plan)
  {
    hide Accepted, ParentPath;
    StagesElsewhere(q);
    forall i | 0 <= i < |q.plan.body.effects| && ParentPath(q.plan.body.effects[i].path) == LEGACY_DIRECTORY
      ensures q.plan.body.effects[i].kind.Remove?
    {
      EffectElsewhere(q, i);
    }
  }

  lemma DestinationElsewhere(path: Path)
    requires path in DESTINATIONS
    ensures ParentPath(path) != LEGACY_DIRECTORY
  {
    hide ParentPath;
    ScopeLengths();
    DestinationParent(path);
  }

  lemma StageElsewhere(path: Path, seed: string)
    requires ValidSeed(seed) && (path in DESTINATIONS || path in LEGACY_DESTINATIONS)
    ensures ParentPath(StageFor(path, seed)) != LEGACY_DIRECTORY
  {
    hide ParentPath, StageFor;
    ScopeLengths();
    if path in DESTINATIONS {
      DestinationElsewhere(path);
      DestinationStageParent(path, seed);
    } else {
      LegacyStageParent(path, seed);
    }
  }

  lemma OnlyLegacyRemoved(q: Request, i: nat)
    requires Accepted(q) && i < |q.plan.body.effects| && q.plan.body.effects[i].path !in DESTINATIONS
    ensures q.plan.body.effects[i].kind.Remove?
  {
    hide PlanActivation, Accepted, Observed, Payloads, Removal, Placement, PlannedPaths;
    RequestFacts(q);
    PayloadsNamed(q.source, Paths(q));
    var removals, placements := Removals(Paths(q)), Placements(Paths(q), q.payloads);
    if i < |removals| {
      assert q.plan.body.effects[i] == removals[i];
      RemovalsRemove(Paths(q), i);
    } else {
      assert q.plan.body.effects[i] == placements[i - |removals|];
      PlacementNamed(Paths(q), q.payloads, i - |removals|);
    }
  }

  lemma RemovalsRemove(paths: seq<PathObservation>, i: nat)
    requires i < |Removals(paths)|
    ensures Removals(paths)[i].kind.Remove?
  {
  }

  lemma PlacementNamed(paths: seq<PathObservation>, payloads: seq<Planned>, j: nat)
    requires ForDestinations(payloads) && j < |payloads|
    ensures Placements(paths, payloads)[j].path in DESTINATIONS
  {
    assert DESTINATIONS[j] in DESTINATIONS;
  }

  lemma LegacyMembers(paths: seq<PathObservation>)
    requires OwnershipProblem(paths).None? && LegacyInstalled(paths)
    ensures HasMembers(paths, LEGACY_DIRECTORY, LEGACY_MEMBERS)
  {
    hide EntryAt, HasMembers, UnsafeFile, Complete;
  }

  lemma LegacyListing(q: Request)
    requires Accepted(q) && LegacyInstalled(Paths(q))
    ensures q.looks.names(Members(q.before, LEGACY_DIRECTORY)) == LEGACY_MEMBERS
  {
    hide PlanActivation, PayloadMap, Payloads, Executor.ContentFor, Observed, FirstProblem, Accepted, Members;
    hide OwnershipProblem, EntryAt;
    RequestFacts(q);
    Screened(q.source, Paths(q));
    LegacyMembers(Paths(q));
    assert LEGACY_DIRECTORY in DIRECTORIES;
    ObservedAt(q.looks, q.before, LEGACY_DIRECTORY);
    LegacyThere(q);
    DirectoryEntry(q, LEGACY_DIRECTORY);
  }

  /** Whatever lies in the legacy directory is one of its three files. */
  lemma InLegacyDirectory(q: Request, path: Path)
    requires Accepted(q) && LegacyInstalled(Paths(q)) && Faithful(q.looks)
    requires Managed(path) in q.before && path != LEGACY_DIRECTORY && ParentPath(path) == LEGACY_DIRECTORY
    ensures path in LEGACY_DESTINATIONS
  {
    hide Accepted, LegacyInstalled, ParentPath, NameOf, Faithful, Observed, Members;
    LegacyListing(q);
    MemberAt(q.before, LEGACY_DIRECTORY, path);
    ScopeLengths();
    ThereIsListed(q.looks, Members(q.before, LEGACY_DIRECTORY), LEGACY_DIRECTORY, path);
    LegacyRests();
  }

  /** No stage of another run is left inside the legacy directory. */
  predicate NoStrayStages(nodes: Nodes) {
    forall place <- nodes :: ParentOf(place) == Managed(LEGACY_DIRECTORY) ==> place.Managed?
  }

  lemma EverythingRemoved(q: Request)
    requires Accepted(q) && LegacyInstalled(Paths(q)) && Faithful(q.looks) && NoStrayStages(q.before)
    ensures RemovesAll(q.plan, q.before)
  {
    hide Accepted, LegacyInstalled, ParentPath, Faithful, Observed, FirstProblem, Payloads, EffectsFor;
    RequestFacts(q);
    forall place | place in q.before && place != Managed(LEGACY_DIRECTORY) && ParentOf(place) == Managed(LEGACY_DIRECTORY)
      ensures place.Managed? && ActivationReady.Removes(q.plan, place.path)
    {
      InLegacyDirectory(q, place.path);
      RemovedAt(q, place.path);
    }
  }

  // ---------------------------------------------------------------------
  // The plan and its tree
  // ---------------------------------------------------------------------

  lemma PlanIsCurrent(q: Request)
    requires Accepted(q) && forall path <- q.plan.body.stagePreconditions :: Stage(path) !in q.before
    ensures Current(q.plan, q.looks, q.before, SCOPE, true, LISTED)
  {
    hide Accepted, Seen;
    Preconditions(q);
    forall entry | entry in q.plan.body.preconditions ensures LooksAs(entry, q.looks, q.before, SCOPE, true, LISTED) {
      var i :| 0 <= i < |Paths(q)| && Recorded(Paths(q), true)[i] == entry;
      SeenPaths(q.looks, q.before, SCOPE, true, LISTED);
      assert ObservedPaths(Paths(q))[i] == SCOPE[i];
    }
  }

  /** A plan made from the tree is up to date on it, and nothing is in its way. */
  lemma FreshPlanIsReady(q: Request)
    requires Accepted(q) && Faithful(q.looks) && NoStrayStages(q.before)
    requires forall path <- q.plan.body.stagePreconditions :: Stage(path) !in q.before
    ensures Current(q.plan, q.looks, q.before, SCOPE, true, LISTED)
    ensures Executor.Unhindered(q.plan, q.looks, q.before)
  {
    hide Accepted, Faithful, Observed, Current, Reachable, RemovesAll, LeavesLegacy, NoStrayStages, LegacyInstalled;
    PlanIsCurrent(q);
    PlanIsReachable(q);
    EmptyListing(q.looks);
    RequestPaths(q);
    if HasRemoval(q.plan) {
      NothingPutThere(q);
      EverythingRemoved(q);
    }
  }
}
