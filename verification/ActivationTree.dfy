/**
 The tree that a committed Activation run leaves, and what an observer sees of it
 (packages/cli/src/activation-mutation.ts:596-614, packages/core/src/activation.ts:622-1085).
 */
module ActivationTree {
  import opened Foundations
  import opened MutationModel
  import opened MutationStore
  import opened MutationPlan
  import opened MutationRun
  import opened MutationPhases
  import opened MutationPrepare
  import opened MutationCurrent
  import opened MutationVerdict
  import opened StagePaths
  import opened ActivationScope
  import opened ActivationReady
  import opened ActivationPlan
  import opened ActivationPlanned
  import opened ActivationFixpoint
  import opened DirectoryNames
  import Finish = MutationFinish
  import Executor = ActivationMutation

  // ---------------------------------------------------------------------
  // Observing the managed surface
  // ---------------------------------------------------------------------

  /** What an undisturbed observer reports of the managed surface. */
  function Observed(looks: Looks, nodes: Nodes): seq<PathObservation> {
    SeenAll(looks, nodes, SCOPE, true, LISTED)
  }

  function At(looks: Looks, nodes: Nodes, path: Path): PathObservation {
    Seen(looks, nodes, path, true, path in LISTED)
  }

  lemma ObservedAt(looks: Looks, nodes: Nodes, path: Path)
    requires path in SCOPE
    ensures EntryAt(Observed(looks, nodes), path) == At(looks, nodes, path)
  {
    hide Seen;
    ScopeDiffers();
    SeenPaths(looks, nodes, SCOPE, true, LISTED);
    var i :| 0 <= i < |SCOPE| && SCOPE[i] == path;
    assert ObservedPaths(Observed(looks, nodes))[i] == path;
    FoundUnique(Observed(looks, nodes), Observed(looks, nodes)[i]);
  }

  lemma ObservedCovers(looks: Looks, nodes: Nodes)
    ensures Covered(Observed(looks, nodes))
  {
    hide Seen;
    ScopeDiffers();
    SeenPaths(looks, nodes, SCOPE, true, LISTED);
    UniqueIffDistinct(SCOPE);
  }

  // ---------------------------------------------------------------------
  // A run planned from its own tree
  // ---------------------------------------------------------------------

  /** A plan made from the tree, its payloads, and the run that starts from that tree. */
  datatype Request = Request(rootIdentity: Identity, source: Source, looks: Looks, before: Nodes, seed: string,
                             plan: Plan, payloads: seq<Planned>, contents: seq<Content>)

  function Paths(q: Request): seq<PathObservation> {
    Observed(q.looks, q.before)
  }

  ghost predicate Accepted(q: Request) {
    && ValidSeed(q.seed)
    && PlanActivation(q.rootIdentity, q.source, Paths(q), q.seed) == Previewed(q.plan, q.payloads)
    && Executor.ContentsOf(q.plan, PayloadMap(q.payloads)) == Contents(q.contents)
  }

  function RunOf(q: Request): Run
    requires |q.contents| == |q.plan.body.effects| == |q.plan.body.stagePreconditions|
  {
    RunFor(q.plan, q.contents, {}, q.before)
  }

  lemma RequestFacts(q: Request)
    requires Accepted(q)
    ensures FirstProblem(q.source, Paths(q)).None? && q.payloads == Payloads(q.source, Paths(q))
    ensures q.plan.body.effects == EffectsFor(Paths(q), q.payloads) && q.plan.body.operation.Activation?
    ensures |q.contents| == |q.plan.body.effects| == |q.plan.body.stagePreconditions|
    ensures ItemsMatch(q.plan, RunOf(q))
  {
    hide FirstProblem, Payloads, EffectsFor, StageFor, Recorded, Executor.ContentFor;
    Problems(q.rootIdentity, q.source, Paths(q), q.seed);
    assert Reason(FirstProblem(q.source, Paths(q)));
  }

  lemma RequestPaths(q: Request)
    requires Accepted(q)
    ensures EffectPaths(q.plan) == PlannedPaths(LegacyInstalled(Paths(q)))
    ensures PreconditionPaths(q.plan) == SCOPE
    ensures HasRemoval(q.plan) ==> LegacyInstalled(Paths(q))
  {
    hide FirstProblem, Payloads, EffectsFor, StageFor, Seen, Executor.ContentFor;
    RequestFacts(q);
    ObservedCovers(q.looks, q.before);
    PayloadsNamed(q.source, Paths(q));
    EffectsNamed(Paths(q), q.payloads);
    PathsOfPlan(q.plan);
    SeenPaths(q.looks, q.before, SCOPE, true, LISTED);
    Preconditions(q);
    if HasRemoval(q.plan) {
      var effect :| effect in q.plan.body.effects && effect.kind.Remove?;
      RemovedEffects(Paths(q), q.payloads, effect);
    }
  }

  lemma Preconditions(q: Request)
    requires Accepted(q)
    ensures q.plan.body.preconditions == Recorded(Paths(q), true)
  {
    hide FirstProblem, Payloads, EffectsFor, StageFor, Seen, Recorded, Executor.ContentFor;
    assert Reason(FirstProblem(q.source, Paths(q)));
  }

  /** The run is committed, as the verdict on its report says. */
  ghost predicate Committed(q: Request, after: Nodes)
    requires |q.contents| == |q.plan.body.effects| == |q.plan.body.stagePreconditions|
  {
    && Finish.TreeCommitted(q.plan, Migrated(q.plan, RunOf(q)), after)
    && (Migrates(q.plan) ==> Managed(LEGACY_DIRECTORY) !in after)
  }

  // ---------------------------------------------------------------------
  // The files that were installed and removed
  // ---------------------------------------------------------------------

  lemma EffectPlanned(q: Request, after: Nodes, i: nat)
    requires Accepted(q) && i < |q.plan.body.effects|
    requires |q.contents| == |q.plan.body.effects| == |q.plan.body.stagePreconditions| && Committed(q, after)
    ensures if q.plan.body.effects[i].kind.Remove? then Managed(q.plan.body.effects[i].path) !in after
            else HasContent(after, Managed(q.plan.body.effects[i].path), q.contents[i].bytes, q.contents[i].requested)
  {
    hide FirstProblem, PlanActivation, PayloadMap, Executor.ContentFor;
    var run := Migrated(q.plan, RunOf(q));
    assert AtPlanned(run, after, i);
    assert q.contents[i].requested - {} == q.contents[i].requested;
  }

  lemma ContentAt(q: Request, i: nat)
    requires Accepted(q) && i < |q.plan.body.effects| == |q.contents|
    ensures Executor.ContentFor(q.plan.body.effects[i], PayloadMap(q.payloads)) == Some(q.contents[i])
  {
    hide FirstProblem, PlanActivation, PayloadMap;
    var payloads := PayloadMap(q.payloads);
    var contentFor := effect => Executor.ContentFor(effect, payloads);
    assert ContentsFor(q.plan.body.effects, contentFor) == Contents(q.contents);
    assert contentFor(q.plan.body.effects[i]) == Some(q.contents[i]);
  }

  /** Every payload is in place with its bytes and its mode. */
  lemma PayloadPlaced(q: Request, after: Nodes, j: nat)
    requires Accepted(q) && j < |q.payloads|
    requires |q.contents| == |q.plan.body.effects| == |q.plan.body.stagePreconditions| && Committed(q, after)
    ensures HasContent(after, Managed(q.payloads[j].path), q.payloads[j].bytes, q.payloads[j].mode)
    ensures ValidMode(q.payloads[j].mode) && q.payloads[j].path in SCOPE
  {
    hide FirstProblem, PlanActivation, PayloadMap, Payloads, Committed, Executor.ContentFor, ValidSource, NonEmptyFile;
    hide Observed, Removals, EntryAt, Accepted;
    RequestFacts(q);
    Screened(q.source, Paths(q));
    DestinationKinds(Paths(q));
    PayloadsNamed(q.source, Paths(q));
    PayloadsConsistent(q.source, Paths(q));
    var i := |Removals(Paths(q))| + j;
    PlacementAt(q, j);
    PlacementAccepted(Paths(q), q.payloads, j);
    ContentAt(q, i);
    EffectPlanned(q, after, i);
    PlannedPathsDiffer(false);
    assert DESTINATIONS[j] in DESTINATIONS;
  }

  lemma PlacementAt(q: Request, j: nat)
    requires j < |q.payloads| && q.plan.body.effects == EffectsFor(Paths(q), q.payloads)
    ensures |Removals(Paths(q))| + j < |q.plan.body.effects|
    ensures q.plan.body.effects[|Removals(Paths(q))| + j] == Placement(Paths(q), q.payloads[j])
  {
    hide Observed, Removals, Placement;
  }

  /** A legacy file is gone. */
  lemma LegacyGone(q: Request, after: Nodes, path: Path)
    requires Accepted(q) && path in LEGACY_DESTINATIONS
    requires |q.contents| == |q.plan.body.effects| == |q.plan.body.stagePreconditions| && Committed(q, after)
    ensures Managed(path) !in after
  {
    hide FirstProblem, PlanActivation, PayloadMap, Payloads, Executor.ContentFor, Observed, Placements;
    RequestFacts(q);
    RequestPaths(q);
    LegacyInScope();
    LegacyEntries(q);
    if LegacyInstalled(Paths(q)) {
      RemovedAt(q, path);
      var i :| 0 <= i < |q.plan.body.effects| && q.plan.body.effects[i].path == path && q.plan.body.effects[i].kind.Remove?;
      EffectPlanned(q, after, i);
    } else {
      assert path !in EffectPaths(q.plan) by { LegacyApart(path); }
      NewOnlyDirectories(q, after, path);
      LegacyNotCreated(path);
    }
  }

  lemma LegacyApart(path: Path)
    requires path in LEGACY_DESTINATIONS
    ensures path !in DESTINATIONS
  {
    FileLengths();
    LegacyLengths();
  }

  lemma LegacyNotCreated(path: Path)
    requires path in LEGACY_DESTINATIONS || path == LEGACY_DIRECTORY || path == ADOPTION
    ensures path !in CREATED_DIRECTORIES
  {
    ScopeLengths();
    FileLengths();
    LegacyLengths();
  }

  lemma RemovedAt(q: Request, path: Path)
    requires Accepted(q) && LegacyInstalled(Paths(q)) && path in LEGACY_DESTINATIONS
    requires q.plan.body.effects == EffectsFor(Paths(q), q.payloads)
    ensures exists i :: 0 <= i < |q.plan.body.effects| && q.plan.body.effects[i].path == path && q.plan.body.effects[i].kind.Remove?
  {
    hide FirstProblem, PlanActivation, PayloadMap, Payloads, Executor.ContentFor, Observed, Placements;
    ObservedCovers(q.looks, q.before);
    RemovalsNamed(Paths(q));
    var k :| 0 <= k < |LEGACY_DESTINATIONS| && LEGACY_DESTINATIONS[k] == path;
    assert PathsOf(Removals(Paths(q)))[k] == path;
    assert q.plan.body.effects[k] == Removals(Paths(q))[k];
  }

  lemma LegacyFilesMissing(paths: seq<PathObservation>)
    requires OwnershipProblem(paths).None? && !LegacyInstalled(paths)
    ensures forall path <- LEGACY_DESTINATIONS :: EntryAt(paths, path).kind == Missing
  {
    hide EntryAt, UnsafeFile, HasMembers;
  }

  lemma SeenMissing(looks: Looks, nodes: Nodes, path: Path)
    ensures At(looks, nodes, path).kind == Missing <==> Managed(path) !in nodes
    ensures At(looks, nodes, path).path == path
  {
    hide Members;
  }

  /** What was there at a legacy file's place before. */
  lemma LegacyEntries(q: Request)
    requires Accepted(q)
    ensures !LegacyInstalled(Paths(q)) ==> forall path <- LEGACY_DESTINATIONS :: Managed(path) !in q.before
  {
    hide PlanActivation, PayloadMap, Payloads, Executor.ContentFor, Observed, FirstProblem, OwnershipProblem, EntryAt, At, Accepted;
    RequestFacts(q);
    Screened(q.source, Paths(q));
    LegacyInScope();
    if !LegacyInstalled(Paths(q)) {
      LegacyFilesMissing(Paths(q));
      forall path | path in LEGACY_DESTINATIONS ensures Managed(path) !in q.before {
        ObservedAt(q.looks, q.before, path);
        SeenMissing(q.looks, q.before, path);
      }
    }
  }

  /** A managed directory is there as an accessible directory or not at all. */
  lemma DirectoryEntry(q: Request, path: Path)
    requires Accepted(q) && path in DIRECTORIES
    ensures Managed(path) in q.before ==>
      q.before[Managed(path)].Folder? && q.looks.readable(path) && q.looks.searchable(path)
  {
    hide PlanActivation, PayloadMap, Payloads, Executor.ContentFor, Observed, FirstProblem, DirectoryProblemAt, Accepted, Members;
    RequestFacts(q);
    Screened(q.source, Paths(q));
    ObservedAt(q.looks, q.before, path);
    KnownDirectory(path, EntryAt(Paths(q), path));
  }

  /** The legacy integration is there exactly when its directory is. */
  lemma LegacyThere(q: Request)
    requires Accepted(q)
    ensures LegacyInstalled(Paths(q)) <==> Managed(LEGACY_DIRECTORY) in q.before
  {
    hide Accepted, Observed, Members;
    assert LEGACY_DIRECTORY in DIRECTORIES;
    ObservedAt(q.looks, q.before, LEGACY_DIRECTORY);
    DirectoryEntry(q, LEGACY_DIRECTORY);
  }

  lemma KnownDirectory(path: Path, entry: PathObservation)
    requires DirectoryProblemAt(path, entry).None?
    ensures entry.kind == Missing || entry.kind == Directory
    ensures entry.kind == Directory ==> entry.readable == Some(true) && entry.searchable == Some(true)
  {
  }

  /** A path that is no effect and was missing is there afterwards only as a created directory. */
  lemma NewOnlyDirectories(q: Request, after: Nodes, path: Path)
    requires |q.contents| == |q.plan.body.effects| == |q.plan.body.stagePreconditions| && Committed(q, after)
    requires q.plan.body.operation.Activation? && path !in EffectPaths(q.plan) && Managed(path) !in q.before
    ensures Managed(path) in after ==> path in CREATED_DIRECTORIES
  {
    hide AllPlanned;
  }

  /** A path that is no effect and was there is as it was. */
  lemma OldStays(q: Request, after: Nodes, path: Path)
    requires |q.contents| == |q.plan.body.effects| == |q.plan.body.stagePreconditions| && Committed(q, after)
    requires path !in EffectPaths(q.plan) && Managed(path) in q.before && path != LEGACY_DIRECTORY
    ensures SameAt(q.before, after, Managed(path))
  {
    hide AllPlanned;
  }

  // ---------------------------------------------------------------------
  // The directories afterwards
  // ---------------------------------------------------------------------

  lemma ParentThere(nodes: Nodes, path: Path)
    requires Planted(nodes) && Managed(path) in nodes && ParentPath(path) != ""
    ensures Managed(ParentPath(path)) in nodes && nodes[Managed(ParentPath(path))].Folder?
  {
    assert ParentPresent(nodes, Managed(path));
  }

  lemma SkillParents()
    ensures ParentPath(SKILL) == SKILL_DIRECTORY && ParentPath(WORKFLOW) == SKILL_DIRECTORY
    ensures ParentPath(SNAPSHOT) == SKILL_DIRECTORY
  {
    SkillNames();
    ParentOfChild(SKILL_DIRECTORY, "SKILL.md");
    ParentOfChild(SKILL_DIRECTORY, "story-development.md");
    ParentOfChild(SKILL_DIRECTORY, ".praxisbound-snapshot");
  }

  lemma SkillNames()
    ensures '/' !in "SKILL.md" && '/' !in "story-development.md" && '/' !in ".praxisbound-snapshot"
    ensures SKILL == SKILL_DIRECTORY + "/" + "SKILL.md"
    ensures WORKFLOW == SKILL_DIRECTORY + "/" + "story-development.md"
    ensures SNAPSHOT == SKILL_DIRECTORY + "/" + ".praxisbound-snapshot"
  {
    assert SKILL_DIRECTORY + "/SKILL.md" == SKILL_DIRECTORY + "/" + "SKILL.md";
    assert SKILL_DIRECTORY + "/story-development.md" == SKILL_DIRECTORY + "/" + "story-development.md";
    assert SKILL_DIRECTORY + "/.praxisbound-snapshot" == SKILL_DIRECTORY + "/" + ".praxisbound-snapshot";
  }

  /** The directories around the installed files are there. */
  lemma DirectoriesThere(after: Nodes)
    requires Planted(after) && Managed(SKILL) in after
    ensures forall path <- CREATED_DIRECTORIES :: Managed(path) in after && after[Managed(path)].Folder?
  {
    hide ParentPath, Planted;
    SkillParents();
    CreatedParents();
    ScopeLengths();
    ParentThere(after, SKILL);
    ParentThere(after, SKILL_DIRECTORY);
    ParentThere(after, ".agents/skills");
  }

  // ---------------------------------------------------------------------
  // The listing of the skill directory
  // ---------------------------------------------------------------------

  const INSTALLED: set<Path> := {SKILL, WORKFLOW, SNAPSHOT}

  lemma MembersAscend()
    ensures Ascending(MEMBERS)
  {
    assert NameBefore(MEMBERS[0], MEMBERS[1]) && NameBefore(MEMBERS[1], MEMBERS[2]) && NameBefore(MEMBERS[0], MEMBERS[2]);
  }

  lemma InstalledNames()
    ensures NameOf(SKILL) == "SKILL.md" && NameOf(WORKFLOW) == "story-development.md"
    ensures NameOf(SNAPSHOT) == ".praxisbound-snapshot"
  {
    hide NameOf;
    SkillNames();
    NameOfChild(SKILL_DIRECTORY, "SKILL.md");
    NameOfChild(SKILL_DIRECTORY, "story-development.md");
    NameOfChild(SKILL_DIRECTORY, ".praxisbound-snapshot");
  }

  lemma InstalledListing(looks: Looks)
    requires Faithful(looks)
    ensures looks.names(INSTALLED) == MEMBERS
  {
    hide NameOf, Ascending;
    InstalledNames();
    MembersAscend();
    forall name ensures name in MEMBERS <==> Named(INSTALLED, name) {
      assert name == "SKILL.md" ==> Named(INSTALLED, name) by { assert SKILL in INSTALLED; }
      assert name == "story-development.md" ==> Named(INSTALLED, name) by { assert WORKFLOW in INSTALLED; }
      assert name == ".praxisbound-snapshot" ==> Named(INSTALLED, name) by { assert SNAPSHOT in INSTALLED; }
    }
    ListingIs(looks, INSTALLED, MEMBERS);
  }

  lemma ParentIsShort(path: Path)
    ensures path != "" ==> |ParentPath(path)| < |path|
  {
  }

  lemma AdoptionElsewhere()
    ensures ParentPath(ADOPTION) != SKILL_DIRECTORY
  {
    ScopeLengths();
    assert ADOPTION[0] == 's' && SKILL_DIRECTORY[0] == '.';
  }

  /** Of the managed paths only the installed files lie in the skill directory. */
  lemma InSkillDirectory(path: Path)
    requires path in SCOPE && ParentPath(path) == SKILL_DIRECTORY
    ensures path in INSTALLED
  {
    hide ParentPath;
    ScopeLengths();
    FileLengths();
    LegacyLengths();
    ParentIsShort(path);
    AdoptionElsewhere();
    LegacyParents();
    assert path in DIRECTORIES || path in OBSERVED_FILES;
  }

  lemma MemberAt(nodes: Nodes, directory: Path, path: Path)
    ensures path in Members(nodes, directory) <==> Managed(path) in nodes && path != directory && ParentPath(path) == directory
  {
  }

  /** What a listing that names the three files contains. */
  lemma OnlyListed(looks: Looks, nodes: Nodes, path: Path)
    requires Faithful(looks) && looks.names(Members(nodes, SKILL_DIRECTORY)) == MEMBERS
    requires path in Members(nodes, SKILL_DIRECTORY)
    ensures path in INSTALLED
  {
    hide ParentPath, NameOf, Faithful;
    MemberAt(nodes, SKILL_DIRECTORY, path);
    ScopeLengths();
    ThereIsListed(looks, Members(nodes, SKILL_DIRECTORY), SKILL_DIRECTORY, path);
    SkillNames();
  }

  /** An integration that was there before listed exactly its three files. */
  lemma InstalledBefore(q: Request)
    requires Accepted(q) && Managed(SKILL_DIRECTORY) in q.before
    ensures q.looks.names(Members(q.before, SKILL_DIRECTORY)) == MEMBERS
  {
    hide PlanActivation, PayloadMap, Payloads, Executor.ContentFor, Observed, FirstProblem, Accepted, Members;
    hide OwnershipProblem, EntryAt;
    RequestFacts(q);
    Screened(q.source, Paths(q));
    assert SKILL_DIRECTORY in DIRECTORIES;
    ObservedAt(q.looks, q.before, SKILL_DIRECTORY);
    DirectoryEntry(q, SKILL_DIRECTORY);
    InstalledMembers(Paths(q));
  }

  lemma InstalledMembers(paths: seq<PathObservation>)
    requires OwnershipProblem(paths).None? && Installed(paths)
    ensures HasMembers(paths, SKILL_DIRECTORY, MEMBERS)
  {
    hide EntryAt, HasMembers, UnsafeFile, Complete;
  }

  /** A path below the skill directory that was there before is one of the three files. */
  lemma BelowBefore(q: Request, path: Path)
    requires Accepted(q) && Planted(q.before) && Faithful(q.looks)
    requires Managed(path) in q.before && path != SKILL_DIRECTORY && ParentPath(path) == SKILL_DIRECTORY
    ensures path in INSTALLED
  {
    hide Accepted, ParentPath, Planted, Faithful, Members;
    ScopeLengths();
    ParentThere(q.before, path);
    InstalledBefore(q);
    MemberAt(q.before, SKILL_DIRECTORY, path);
    OnlyListed(q.looks, q.before, path);
  }

  lemma BelowAfter(q: Request, after: Nodes, path: Path)
    requires Accepted(q) && Planted(q.before) && Faithful(q.looks)
    requires |q.contents| == |q.plan.body.effects| == |q.plan.body.stagePreconditions| && Committed(q, after)
    requires Managed(path) in after && path != SKILL_DIRECTORY && ParentPath(path) == SKILL_DIRECTORY
    ensures path in INSTALLED
  {
    hide Accepted, ParentPath, Planted, Faithful, Committed;
    if path in SCOPE {
      InSkillDirectory(path);
    } else {
      RequestFacts(q);
      RequestPaths(q);
      PlannedPathsDiffer(LegacyInstalled(Paths(q)));
      assert Managed(path) in q.before by {
        if Managed(path) !in q.before {
          NewOnlyDirectories(q, after, path);
          CreatedInScope();
        }
      }
      BelowBefore(q, path);
    }
  }

  lemma CreatedInScope()
    ensures forall path <- CREATED_DIRECTORIES :: path in SCOPE
  {
    assert forall path <- CREATED_DIRECTORIES :: path in DIRECTORIES;
  }

  lemma SkillListing(q: Request, after: Nodes)
    requires Accepted(q) && Planted(q.before) && Faithful(q.looks)
    requires |q.contents| == |q.plan.body.effects| == |q.plan.body.stagePreconditions| && Committed(q, after)
    requires forall path <- INSTALLED :: Managed(path) in after
    ensures Members(after, SKILL_DIRECTORY) == INSTALLED
  {
    hide Accepted, ParentPath, Planted, Faithful, Committed, Members;
    SkillParents();
    ScopeLengths();
    FileLengths();
    forall path ensures path in Members(after, SKILL_DIRECTORY) <==> path in INSTALLED {
      MemberAt(after, SKILL_DIRECTORY, path);
      if path in Members(after, SKILL_DIRECTORY) {
        BelowAfter(q, after, path);
      }
    }
  }

  // ---------------------------------------------------------------------
  // What an observer sees afterwards
  // ---------------------------------------------------------------------

  /** The directories a run may have made are accessible. */
  ghost predicate Opens(looks: Looks) {
    forall path <- CREATED_DIRECTORIES :: looks.readable(path) && looks.searchable(path)
  }

  lemma SeenPlainDirectory(looks: Looks, nodes: Nodes, path: Path)
    requires Managed(path) in nodes && nodes[Managed(path)].Folder? && path !in LISTED
    requires looks.readable(path) && looks.searchable(path)
    ensures PlainDirectory(At(looks, nodes, path))
  {
    hide Members;
  }

  lemma SeenSkillDirectory(looks: Looks, nodes: Nodes)
    requires Managed(SKILL_DIRECTORY) in nodes && nodes[Managed(SKILL_DIRECTORY)].Folder?
    requires looks.readable(SKILL_DIRECTORY) && looks.searchable(SKILL_DIRECTORY) && Faithful(looks)
    requires Members(nodes, SKILL_DIRECTORY) == INSTALLED
    ensures SkillDirectory(At(looks, nodes, SKILL_DIRECTORY))
  {
    hide Members, Ascending;
    InstalledListing(looks);
  }

  lemma SeenFile(looks: Looks, nodes: Nodes, path: Path, bytes: Bytes, mode: Mode)
    requires HasContent(nodes, Managed(path), bytes, mode) && ValidMode(mode)
    ensures SafeFile(At(looks, nodes, path)) && At(looks, nodes, path).text == Some(bytes)
  {
    hide Members;
  }

  lemma SeenMissingFile(looks: Looks, nodes: Nodes, path: Path)
    requires Managed(path) !in nodes
    ensures At(looks, nodes, path) == Plain(path, Missing)
  {
  }

  lemma SeenTheSameFile(looks: Looks, a: Nodes, b: Nodes, path: Path)
    requires SameAt(a, b, Managed(path)) && path !in LISTED
    ensures At(looks, a, path) == At(looks, b, path)
  {
    hide Members;
  }

  lemma AdoptedKinds(paths: seq<PathObservation>)
    requires AdoptedProblem(paths).None?
    ensures EntryAt(paths, "specs").kind == Directory && EntryAt(paths, "specs/stories").kind == Directory
  {
    hide EntryAt, NonEmptyFile;
  }

  lemma AdoptedApart(path: Path, legacy: bool)
    requires path == "specs" || path == "specs/stories"
    ensures path !in PlannedPaths(legacy) && path != LEGACY_DIRECTORY && path !in LISTED && path in DIRECTORIES
  {
    ScopeLengths();
    FileLengths();
    LegacyLengths();
    assert DIRECTORIES[0] == "specs" && DIRECTORIES[1] == "specs/stories";
  }

  /** An adopted directory is still there. */
  lemma AdoptedStays(q: Request, after: Nodes, path: Path)
    requires Accepted(q) && (path == "specs" || path == "specs/stories")
    requires |q.contents| == |q.plan.body.effects| == |q.plan.body.stagePreconditions| && Committed(q, after)
    ensures PlainDirectory(At(q.looks, after, path))
  {
    hide PlanActivation, PayloadMap, Payloads, Executor.ContentFor, Observed, FirstProblem, Accepted, Members, Committed, ParentPath;
    hide AdoptedProblem, EntryAt, PlannedPaths, PlainDirectory;
    RequestFacts(q);
    RequestPaths(q);
    Screened(q.source, Paths(q));
    AdoptedKinds(Paths(q));
    AdoptedApart(path, LegacyInstalled(Paths(q)));
    ObservedAt(q.looks, q.before, path);
    SeenMissing(q.looks, q.before, path);
    DirectoryEntry(q, path);
    OldStays(q, after, path);
    SeenPlainDirectory(q.looks, after, path);
  }

  /** The adoption marker is what it was. */
  lemma MarkerStays(q: Request, after: Nodes)
    requires Accepted(q)
    requires |q.contents| == |q.plan.body.effects| == |q.plan.body.stagePreconditions| && Committed(q, after)
    ensures At(q.looks, after, ADOPTION) == At(q.looks, q.before, ADOPTION)
  {
    hide PlanActivation, PayloadMap, Payloads, Executor.ContentFor, Observed, FirstProblem, Accepted, Members, Committed;
    RequestFacts(q);
    RequestPaths(q);
    ScopeLengths();
    FileLengths();
    LegacyLengths();
    if Managed(ADOPTION) in q.before {
      OldStays(q, after, ADOPTION);
    } else {
      NewOnlyDirectories(q, after, ADOPTION);
      LegacyNotCreated(ADOPTION);
    }
    SeenTheSameFile(q.looks, q.before, after, ADOPTION);
  }

  lemma LegacyDirectoryGone(q: Request, after: Nodes)
    requires Accepted(q)
    requires |q.contents| == |q.plan.body.effects| == |q.plan.body.stagePreconditions| && Committed(q, after)
    ensures Managed(LEGACY_DIRECTORY) !in after
  {
    hide PlanActivation, PayloadMap, Payloads, Executor.ContentFor, Observed, FirstProblem, Accepted, Finish.TreeCommitted;
    RequestFacts(q);
    RequestPaths(q);
    LegacyThere(q);
    if LegacyInstalled(Paths(q)) {
      assert LEGACY_DESTINATIONS[0] in LEGACY_DESTINATIONS;
      RemovedAt(q, LEGACY_DESTINATIONS[0]);
    } else {
      PlannedPathsDiffer(false);
      NewOnlyDirectories(q, after, LEGACY_DIRECTORY);
      LegacyNotCreated(LEGACY_DIRECTORY);
    }
  }

  lemma FilesSeen(q: Request, after: Nodes)
    requires Accepted(q)
    requires |q.contents| == |q.plan.body.effects| == |q.plan.body.stagePreconditions| && Committed(q, after)
    ensures forall payload <- Payloads(q.source, Paths(q)) ::
      SafeFile(EntryAt(Observed(q.looks, after), payload.path)) &&
      EntryAt(Observed(q.looks, after), payload.path).text == Some(payload.bytes)
    ensures Managed(SKILL) in after && Managed(WORKFLOW) in after && Managed(SNAPSHOT) in after
  {
    hide PlanActivation, Payloads, Observed, FirstProblem, Accepted, Committed, SafeFile, At, EntryAt;
    RequestFacts(q);
    PayloadsNamed(q.source, Paths(q));
    forall j | 0 <= j < |q.payloads|
      ensures HasContent(after, Managed(q.payloads[j].path), q.payloads[j].bytes, q.payloads[j].mode)
      ensures SafeFile(EntryAt(Observed(q.looks, after), q.payloads[j].path))
      ensures EntryAt(Observed(q.looks, after), q.payloads[j].path).text == Some(q.payloads[j].bytes)
    {
      PayloadPlaced(q, after, j);
      SeenFile(q.looks, after, q.payloads[j].path, q.payloads[j].bytes, q.payloads[j].mode);
      ObservedAt(q.looks, after, q.payloads[j].path);
    }
    assert q.payloads[1].path == SKILL && q.payloads[2].path == WORKFLOW && q.payloads[3].path == SNAPSHOT;
  }

  lemma CreatedSeen(q: Request, after: Nodes)
    requires Accepted(q) && Planted(q.before) && Planted(after) && Faithful(q.looks) && Opens(q.looks)
    requires |q.contents| == |q.plan.body.effects| == |q.plan.body.stagePreconditions| && Committed(q, after)
    ensures PlainDirectory(At(q.looks, after, ".agents")) && PlainDirectory(At(q.looks, after, ".agents/skills"))
    ensures SkillDirectory(At(q.looks, after, SKILL_DIRECTORY))
  {
    hide Accepted, Committed, Planted, Faithful, Observed, At, SafeFile, Payloads, Members, PlainDirectory, SkillDirectory;
    FilesSeen(q, after);
    DirectoriesThere(after);
    SkillListing(q, after);
    ScopeLengths();
    SeenPlainDirectory(q.looks, after, ".agents");
    SeenPlainDirectory(q.looks, after, ".agents/skills");
    SeenSkillDirectory(q.looks, after);
  }

  /** Observing the tree of a committed run shows the installation, whatever was there before. */
  lemma CommittedIsInstalled(q: Request, after: Nodes)
    requires Accepted(q) && Planted(q.before) && Planted(after) && Faithful(q.looks) && Opens(q.looks)
    requires |q.contents| == |q.plan.body.effects| == |q.plan.body.stagePreconditions| && Committed(q, after)
    ensures ObservesInstalled(q.source, Paths(q), Observed(q.looks, after))
  {
    hide Accepted, Committed, Planted, Faithful, Observed, At, SafeFile, Payloads, Covered, PlainDirectory, SkillDirectory, EntryAt;
    ObservedCovers(q.looks, after);
    ScopeNamed();
    forall path | path in SCOPE ensures EntryAt(Observed(q.looks, after), path) == At(q.looks, after, path) {
      ObservedAt(q.looks, after, path);
    }
    ObservedAt(q.looks, q.before, ADOPTION);
    AdoptedStays(q, after, "specs");
    AdoptedStays(q, after, "specs/stories");
    CreatedSeen(q, after);
    LegacyDirectoryGone(q, after);
    SeenMissingFile(q.looks, after, LEGACY_DIRECTORY);
    LegacyInScope();
    forall path | path in LEGACY_DESTINATIONS ensures At(q.looks, after, path) == Plain(path, Missing) && path in SCOPE {
      LegacyGone(q, after, path);
      SeenMissingFile(q.looks, after, path);
    }
    MarkerStays(q, after);
    FilesSeen(q, after);
  }

  lemma ScopeNamed()
    ensures "specs" in SCOPE && "specs/stories" in SCOPE && ".agents" in SCOPE && ".agents/skills" in SCOPE
    ensures SKILL_DIRECTORY in SCOPE && LEGACY_DIRECTORY in SCOPE && ADOPTION in SCOPE
  {
    assert DIRECTORIES[0] in DIRECTORIES && DIRECTORIES[1] in DIRECTORIES && DIRECTORIES[2] in DIRECTORIES;
    assert DIRECTORIES[3] in DIRECTORIES && DIRECTORIES[4] in DIRECTORIES && DIRECTORIES[5] in DIRECTORIES;
    assert OBSERVED_FILES[1] in OBSERVED_FILES;
  }
}
