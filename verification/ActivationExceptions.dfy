/**
 The two packaged sources for which Activation does not settle: a skill that is a bare byte
 order mark and a block with a legacy marker line. validSource accepts both of them
 (packages/core/src/activation.ts:238-345), the first plan is made, and planning again over
 its installation is a conflict.
 */
module ActivationExceptions {
  import opened Foundations
  import opened MutationModel
  import opened MutationPhases
  import opened StagePaths
  import opened TextPatterns
  import opened MarkerSpan
  import opened ActivationScope
  import opened ActivationAgents
  import opened ActivationPlan
  import opened ActivationPlanned
  import opened ActivationFixpoint
  import opened ActivationTree
  import Utf8

  // ---------------------------------------------------------------------
  // A surface is a function of its paths
  // ---------------------------------------------------------------------

  /** The surface with one entry for every managed path. */
  function Surface(entryFor: Path -> PathObservation): (paths: seq<PathObservation>)
    ensures |paths| == |SCOPE|
    ensures forall i :: 0 <= i < |SCOPE| ==> paths[i] == entryFor(SCOPE[i])
  {
    seq(|SCOPE|, i requires 0 <= i < |SCOPE| => entryFor(SCOPE[i]))
  }

  lemma SurfaceAt(entryFor: Path -> PathObservation)
    requires forall path <- SCOPE :: entryFor(path).path == path
    ensures Covered(Surface(entryFor))
    ensures forall path <- SCOPE :: EntryAt(Surface(entryFor), path) == entryFor(path)
  {
    ScopeDiffers();
    var paths := Surface(entryFor);
    assert ObservedPaths(paths) == SCOPE;
    UniqueIffDistinct(SCOPE);
    forall path | path in SCOPE ensures EntryAt(paths, path) == entryFor(path) {
      var i :| 0 <= i < |SCOPE| && SCOPE[i] == path;
      assert paths[i] in paths;
      FoundUnique(paths, paths[i]);
    }
  }

  function Folder(path: Path): PathObservation {
    PathObservation(path, Directory, Some(true), Some(true), None, Some(0), None, None, None)
  }

  function Regular(path: Path, bytes: Bytes): PathObservation {
    PathObservation(path, File, Some(true), None, Some(Sha256(bytes)), Some(0), Some({}), Some(bytes), None)
  }

  /** An adopted repository without the integration. */
  function FreshEntry(path: Path): PathObservation {
    if path == "specs" || path == "specs/stories" then Folder(path)
    else if path == AGENTS then Regular(path, "A")
    else Plain(path, Missing)
  }

  function Fresh(): seq<PathObservation> {
    Surface(FreshEntry)
  }

  lemma FreshNames()
    ensures forall path <- SCOPE :: FreshEntry(path).path == path
    ensures Covered(Fresh()) && forall path <- SCOPE :: EntryAt(Fresh(), path) == FreshEntry(path)
  {
    SurfaceAt(FreshEntry);
  }

  // ---------------------------------------------------------------------
  // What is installed there
  // ---------------------------------------------------------------------

  function InstalledEntry(source: Source, paths: seq<PathObservation>, path: Path): PathObservation {
    if path == SKILL_DIRECTORY then
      Folder(path).(members := Some(MEMBERS), digest := Some(MembersDigest(MEMBERS)))
    else if path == "specs" || path == "specs/stories" || path == ".agents" || path == ".agents/skills" then Folder(path)
    else if path == AGENTS then Regular(path, DesiredAgents(source, paths))
    else if path == SKILL then Regular(path, DesiredSkill(source))
    else if path == WORKFLOW then Regular(path, source.workflow.bytes)
    else if path == SNAPSHOT then Regular(path, DesiredSnapshot(source, paths))
    else if path == ADOPTION then EntryAt(paths, ADOPTION)
    else Plain(path, Missing)
  }

  function Installation(source: Source, paths: seq<PathObservation>): seq<PathObservation> {
    Surface(path => InstalledEntry(source, paths, path))
  }

  lemma InstalledPath(source: Source, paths: seq<PathObservation>, path: Path)
    requires EntryAt(paths, ADOPTION).path == ADOPTION
    ensures InstalledEntry(source, paths, path).path == path
  {
    hide DesiredAgents, DesiredSkill, DesiredSnapshot, EntryAt, MembersDigest;
  }

  lemma InstallationAt(source: Source, paths: seq<PathObservation>)
    requires Covered(paths)
    ensures Covered(Installation(source, paths))
    ensures forall path <- SCOPE :: EntryAt(Installation(source, paths), path) == InstalledEntry(source, paths, path)
  {
    hide InstalledEntry, Covered, EntryAt;
    ScopeNamed();
    EntryPath(paths, ADOPTION);
    var entryFor := path => InstalledEntry(source, paths, path);
    forall path | path in SCOPE ensures entryFor(path).path == path {
      InstalledPath(source, paths, path);
    }
    SurfaceAt(entryFor);
    forall path | path in SCOPE
      ensures EntryAt(Installation(source, paths), path) == InstalledEntry(source, paths, path)
    {
      assert EntryAt(Surface(entryFor), path) == entryFor(path);
    }
  }

  lemma DestinationsApart()
    ensures AGENTS != SKILL_DIRECTORY && SKILL != SKILL_DIRECTORY && WORKFLOW != SKILL_DIRECTORY && SNAPSHOT != SKILL_DIRECTORY
    ensures forall path <- LEGACY_DESTINATIONS + [LEGACY_DIRECTORY] :: path !in DESTINATIONS + CREATED_DIRECTORIES + ["specs", "specs/stories", ADOPTION]
    ensures ADOPTION !in DESTINATIONS + CREATED_DIRECTORIES + ["specs", "specs/stories"]
    ensures AGENTS in SCOPE && SKILL in SCOPE && WORKFLOW in SCOPE && SNAPSHOT in SCOPE
    ensures SKILL != AGENTS && WORKFLOW != AGENTS && SNAPSHOT != AGENTS && WORKFLOW != SKILL && SNAPSHOT != SKILL && SNAPSHOT != WORKFLOW
    ensures forall path <- DESTINATIONS :: path !in ["specs", "specs/stories", ".agents", ".agents/skills"]
  {
    ScopeLengths();
    FileLengths();
    LegacyLengths();
    PlannedPathsDiffer(false);
    assert DESTINATIONS[0] in DESTINATIONS && DESTINATIONS[1] in DESTINATIONS && DESTINATIONS[2] in DESTINATIONS && DESTINATIONS[3] in DESTINATIONS;
  }

  lemma FoldersInstalled(source: Source, paths: seq<PathObservation>)
    ensures forall path <- ["specs", "specs/stories", ".agents", ".agents/skills"] ::
      InstalledEntry(source, paths, path) == Folder(path)
    ensures InstalledEntry(source, paths, SKILL_DIRECTORY) ==
            Folder(SKILL_DIRECTORY).(members := Some(MEMBERS), digest := Some(MembersDigest(MEMBERS)))
  {
    hide DesiredAgents, DesiredSkill, DesiredSnapshot, EntryAt, MembersDigest;
    ScopeLengths();
  }

  lemma LegacyNotInstalled(source: Source, paths: seq<PathObservation>, path: Path)
    requires path in LEGACY_DESTINATIONS + [LEGACY_DIRECTORY]
    ensures InstalledEntry(source, paths, path) == Plain(path, Missing)
  {
    DestinationsApart();
    OtherInstalled(source, paths, path);
  }

  lemma OtherInstalled(source: Source, paths: seq<PathObservation>, path: Path)
    requires path !in DESTINATIONS + CREATED_DIRECTORIES + ["specs", "specs/stories", ADOPTION]
    ensures InstalledEntry(source, paths, path) == Plain(path, Missing)
  {
    hide DesiredAgents, DesiredSkill, DesiredSnapshot, EntryAt, MembersDigest;
    var others := DESTINATIONS + CREATED_DIRECTORIES + ["specs", "specs/stories", ADOPTION];
    assert others[0] == AGENTS && others[1] == SKILL && others[2] == WORKFLOW && others[3] == SNAPSHOT;
    assert others[4] == ".agents" && others[5] == ".agents/skills" && others[6] == SKILL_DIRECTORY;
    assert others[7] == "specs" && others[8] == "specs/stories" && others[9] == ADOPTION;
  }

  lemma AdoptionInstalled(source: Source, paths: seq<PathObservation>)
    ensures InstalledEntry(source, paths, ADOPTION) == EntryAt(paths, ADOPTION)
  {
    hide DesiredAgents, DesiredSkill, DesiredSnapshot, EntryAt, MembersDigest;
    DestinationsApart();
    assert ADOPTION !in DESTINATIONS && ADOPTION !in CREATED_DIRECTORIES && ADOPTION !in ["specs", "specs/stories"];
  }

  lemma FolderIsPlain(path: Path)
    ensures PlainDirectory(Folder(path))
    ensures SkillDirectory(Folder(path).(members := Some(MEMBERS), digest := Some(MembersDigest(MEMBERS))))
  {
  }

  /** Every accepted request has a later observation that shows what it installs. */
  lemma InstallationIsObserved(source: Source, paths: seq<PathObservation>)
    requires Covered(paths)
    ensures ObservesInstalled(source, paths, Installation(source, paths))
  {
    hide DesiredAgents, DesiredSkill, DesiredSnapshot, Covered, EntryAt, Installation, MembersDigest, InstalledEntry, Payloads,
      PlainDirectory, SkillDirectory, SafeFile;
    InstallationAt(source, paths);
    ScopeNamed();
    LegacyInScope();
    FilesInstalled(source, paths);
    FoldersInstalled(source, paths);
    AdoptionInstalled(source, paths);
    FolderIsPlain("specs");
    FolderIsPlain("specs/stories");
    FolderIsPlain(".agents");
    FolderIsPlain(".agents/skills");
    FolderIsPlain(SKILL_DIRECTORY);
    forall path | path in LEGACY_DESTINATIONS + [LEGACY_DIRECTORY]
      ensures path in SCOPE && EntryAt(Installation(source, paths), path) == Plain(path, Missing)
    {
      LegacyNotInstalled(source, paths, path);
    }
  }

  lemma RegularIsSafe(path: Path, bytes: Bytes)
    ensures SafeFile(Regular(path, bytes)) && Regular(path, bytes).text == Some(bytes)
  {
  }

  lemma RegularInstalled(source: Source, paths: seq<PathObservation>)
    ensures InstalledEntry(source, paths, AGENTS) == Regular(AGENTS, DesiredAgents(source, paths))
    ensures InstalledEntry(source, paths, SKILL) == Regular(SKILL, DesiredSkill(source))
    ensures InstalledEntry(source, paths, WORKFLOW) == Regular(WORKFLOW, source.workflow.bytes)
    ensures InstalledEntry(source, paths, SNAPSHOT) == Regular(SNAPSHOT, DesiredSnapshot(source, paths))
  {
    hide DesiredAgents, DesiredSkill, DesiredSnapshot, EntryAt, MembersDigest;
    DestinationsApart();
    assert AGENTS in DESTINATIONS && SKILL in DESTINATIONS && WORKFLOW in DESTINATIONS && SNAPSHOT in DESTINATIONS;
  }

  lemma FilesInstalled(source: Source, paths: seq<PathObservation>)
    requires Covered(paths)
    ensures forall payload <- Payloads(source, paths) ::
      SafeFile(EntryAt(Installation(source, paths), payload.path)) &&
      EntryAt(Installation(source, paths), payload.path).text == Some(payload.bytes)
  {
    hide DesiredAgents, DesiredSkill, DesiredSnapshot, Covered, EntryAt, Installation, SafeFile, PlannedMode, InstalledEntry;
    InstallationAt(source, paths);
    DestinationsApart();
    RegularInstalled(source, paths);
    RegularIsSafe(AGENTS, DesiredAgents(source, paths));
    RegularIsSafe(SKILL, DesiredSkill(source));
    RegularIsSafe(WORKFLOW, source.workflow.bytes);
    RegularIsSafe(SNAPSHOT, DesiredSnapshot(source, paths));
  }

  // ---------------------------------------------------------------------
  // What the second plan says
  // ---------------------------------------------------------------------

  lemma OwnershipConflict(later: seq<PathObservation>)
    requires SafeFile(EntryAt(later, SKILL)) && EntryAt(later, SKILL).text == Some("")
    requires SafeFile(EntryAt(later, WORKFLOW)) && SafeFile(EntryAt(later, SNAPSHOT))
    requires SkillDirectory(EntryAt(later, SKILL_DIRECTORY))
    requires EntryAt(later, LEGACY_DIRECTORY) == Plain(LEGACY_DIRECTORY, Missing)
    ensures OwnershipProblem(later) == Some(Conflict(SKILL_DIRECTORY))
  {
    hide EntryAt;
    assert DESTINATIONS[1..] == [SKILL, WORKFLOW, SNAPSHOT];
    assert UnsafeFile(later, DESTINATIONS[1..]).None?;
    assert SKILL in DESTINATIONS[1..] by { assert DESTINATIONS[1..][0] == SKILL; }
    assert !Complete(later, true, DESTINATIONS[1..]);
  }

  lemma FirstIsOwnership(source: Source, later: seq<PathObservation>)
    requires SourceProblem(source).None? && SurfaceProblem(later).None? && DirectoriesProblem(later, DIRECTORIES).None?
    requires AdoptedProblem(later).None? && AdoptionProblem(later).None? && OwnershipProblem(later).Some?
    ensures FirstProblem(source, later) == OwnershipProblem(later)
  {
    hide SourceProblem, SurfaceProblem, DirectoriesProblem, AdoptedProblem, AdoptionProblem, OwnershipProblem;
  }

  lemma FirstIsSections(source: Source, later: seq<PathObservation>)
    requires SourceProblem(source).None? && SurfaceProblem(later).None? && DirectoriesProblem(later, DIRECTORIES).None?
    requires AdoptedProblem(later).None? && AdoptionProblem(later).None? && OwnershipProblem(later).None?
    requires SectionsProblem(later).Some?
    ensures FirstProblem(source, later) == Some(Conflict(AGENTS))
  {
    hide SourceProblem, SurfaceProblem, DirectoriesProblem, AdoptedProblem, AdoptionProblem, OwnershipProblem;
  }

  lemma PlanIsProblem(rootIdentity: Identity, source: Source, later: seq<PathObservation>, seed: string)
    requires ValidSeed(seed) && FirstProblem(source, later).Some?
    ensures PlanActivation(rootIdentity, source, later, seed) == FirstProblem(source, later).value
  {
    hide FirstProblem;
  }

  lemma NothingBefore(source: Source, paths: seq<PathObservation>, later: seq<PathObservation>)
    requires FirstProblem(source, paths).None? && ObservesInstalled(source, paths, later)
    ensures SourceProblem(source).None? && SurfaceProblem(later).None? && DirectoriesProblem(later, DIRECTORIES).None?
    ensures AdoptedProblem(later).None? && AdoptionProblem(later).None?
  {
    hide Payloads, EntryAt, SectionsProblem, OwnershipProblem, DirectoriesProblem, AdoptedProblem, AdoptionProblem,
      SkillDirectory, PlainDirectory, ValidSource, Covered;
    Screened(source, paths);
    AgentsSettle(source, paths);
    DirectoriesFine(source, paths, later);
    AdoptedFine(source, paths, later);
    AdoptionStays(paths, later);
  }

  lemma SkillConflict(source: Source, paths: seq<PathObservation>, later: seq<PathObservation>)
    requires FirstProblem(source, paths).None? && ObservesInstalled(source, paths, later) && OnlyMark(source.skill.bytes)
    ensures FirstProblem(source, later) == Some(Conflict(SKILL_DIRECTORY))
  {
    hide Payloads, EntryAt, FirstProblem, SectionsProblem, OwnershipProblem, DirectoriesProblem, AdoptedProblem, AdoptionProblem,
      SourceProblem, SurfaceProblem, SkillDirectory, PlainDirectory, ValidSource, Covered, SafeFile, DesiredSkill;
    NothingBefore(source, paths, later);
    Screened(source, paths);
    InstalledFiles(source, paths, later);
    SkillIsThere(source);
    OwnershipConflict(later);
    FirstIsOwnership(source, later);
  }

  lemma AgentsConflict(source: Source, paths: seq<PathObservation>, later: seq<PathObservation>)
    requires FirstProblem(source, paths).None? && ObservesInstalled(source, paths, later)
    requires !OnlyMark(source.skill.bytes) && !Unmarked(LEGACY, LinesOf(source.agentBlock.bytes))
    ensures FirstProblem(source, later) == Some(Conflict(AGENTS))
  {
    hide Payloads, EntryAt, FirstProblem, SectionsProblem, OwnershipProblem, DirectoriesProblem, AdoptedProblem, AdoptionProblem,
      SourceProblem, SurfaceProblem, SkillDirectory, PlainDirectory, Covered, SafeFile, DesiredSkill, Unmarked, BlockSettled;
    NothingBefore(source, paths, later);
    Screened(source, paths);
    AgentsSettle(source, paths);
    InstalledFiles(source, paths, later);
    SkillIsThere(source);
    SnapshotIsThere(source, paths);
    OwnershipIff(later, DesiredAgents(source, paths), DesiredSkill(source), source.workflow.bytes, DesiredSnapshot(source, paths));
    SectionsIff(source, paths, later);
    FirstIsSections(source, later);
  }

  /** The conflict that planning again runs into, for every source that does not settle. */
  lemma SecondPlanConflicts(rootIdentity: Identity, source: Source, paths: seq<PathObservation>, later: seq<PathObservation>, seed: string)
    requires ValidSeed(seed) && FirstProblem(source, paths).None? && ObservesInstalled(source, paths, later)
    requires OnlyMark(source.skill.bytes) || !Unmarked(LEGACY, LinesOf(source.agentBlock.bytes))
    ensures PlanActivation(rootIdentity, source, later, seed) ==
            Conflict(if OnlyMark(source.skill.bytes) then SKILL_DIRECTORY else AGENTS)
  {
    hide *;
    if OnlyMark(source.skill.bytes) {
      SkillConflict(source, paths, later);
    } else {
      AgentsConflict(source, paths, later);
    }
    PlanIsProblem(rootIdentity, source, later, seed);
  }

  // ---------------------------------------------------------------------
  // Two sources
  // ---------------------------------------------------------------------

  const MARK: Bytes := "\U{EF}\U{BB}\U{BF}"
  const LEGACY_BLOCK: Bytes := "<!-- ForgeFlow Codex: begin -->\n"

  function AssetOf(bytes: Bytes): Asset {
    Asset(bytes, Sha256(bytes), {})
  }

  function SourceWith(skill: Bytes, block: Bytes): Source {
    Source("0.1.0", "unknown", "p", AssetOf(skill), AssetOf("w"), AssetOf(block))
  }

  lemma VersionIsValid()
    ensures VersionText("0.1.0")
  {
    var text := "0.1.0";
    assert FirstDot(text, 0) == 1;
    assert FirstDot(text, 2) == 3;
    assert text[..1] == "0" && text[2..3] == "1" && text[4..] == "0";
  }

  lemma RevisionIsValid()
    ensures RevisionText("unknown")
  {
    assert WithoutSuffix("unknown", "-dirty") == "unknown";
  }

  lemma MarkIsValid()
    ensures Utf8.Valid(MARK) && OnlyMark(MARK)
  {
    assert Utf8.Width(MARK, 0) == 3;
    assert Utf8.ValidFrom(MARK, 3);
  }

  lemma ShortIsUnmarked(text: Bytes, needle: Bytes)
    requires |text| < |needle|
    ensures !Contains(text, needle)
  {
  }

  lemma CurrentPrefix()
    ensures |CURRENT.prefix| == 23 && CURRENT.prefix[5] == 'P' && |LEGACY.prefix| == 21
  {
  }

  lemma BlockWithoutP(block: Bytes)
    requires forall c <- block :: c != 'P'
    ensures !Contains(block, CURRENT.prefix)
  {
    CurrentPrefix();
    forall k | 0 <= k <= |block| ensures !OccursAt(block, CURRENT.prefix, k) {
      if k + |CURRENT.prefix| <= |block| {
        assert block[k + 5] in block;
        assert block[k..k + |CURRENT.prefix|][5] == block[k + 5];
      }
    }
  }

  lemma SourceIsValid(skill: Bytes, block: Bytes)
    requires skill != "" && Utf8.Valid(skill) && Utf8.Ascii(block) && block != "" && block[|block| - 1] == '\n'
    requires forall c <- block :: c != 'P'
    ensures ValidSource(SourceWith(skill, block))
  {
    hide VersionText, RevisionText, Utf8.Valid, Contains;
    VersionIsValid();
    RevisionIsValid();
    Utf8.AsciiDecodes(block);
    BlockWithoutP(block);
  }

  lemma FreshAgents(markers: Markers)
    requires |markers.prefix| > 1 && (markers == CURRENT || markers == LEGACY)
    ensures SpanOf(markers, "A") == Some(Absent)
  {
    MarkersAreSound();
    ShortIsUnmarked("A", markers.prefix);
    NoLineContains(markers, "A", 0);
    NoMarkers(markers, "A");
  }

  lemma FreshDirectories()
    ensures DirectoriesProblem(Fresh(), DIRECTORIES).None?
  {
    hide EntryAt, Fresh;
    FreshNames();
    ScopeLengths();
    FileLengths();
    forall path | path in DIRECTORIES ensures DirectoryProblemAt(path, EntryAt(Fresh(), path)).None? {
      assert path in SCOPE;
    }
  }

  lemma FreshAdopted()
    ensures AdoptedProblem(Fresh()).None? && AdoptionProblem(Fresh()).None?
    ensures AgentsOf(Fresh()) == "A"
  {
    hide EntryAt, Fresh;
    FreshNames();
    ScopeNamed();
    DestinationsApart();
    ScopeLengths();
    RegularIsSafe(AGENTS, "A");
  }

  lemma NothingInstalled(paths: seq<PathObservation>)
    requires EntryAt(paths, SKILL_DIRECTORY) == Plain(SKILL_DIRECTORY, Missing)
    requires EntryAt(paths, LEGACY_DIRECTORY) == Plain(LEGACY_DIRECTORY, Missing)
    requires forall path <- DESTINATIONS[1..] + LEGACY_DESTINATIONS :: EntryAt(paths, path) == Plain(path, Missing)
    ensures OwnershipProblem(paths).None? && !Installed(paths) && !LegacyInstalled(paths)
  {
    hide EntryAt, SafeFile;
    forall path | path in DESTINATIONS[1..] || path in LEGACY_DESTINATIONS ensures EntryAt(paths, path) == Plain(path, Missing) {
      assert path in DESTINATIONS[1..] + LEGACY_DESTINATIONS;
    }
    assert UnsafeFile(paths, DESTINATIONS[1..]).None?;
  }

  lemma FreshOwnership()
    ensures OwnershipProblem(Fresh()).None? && !Installed(Fresh()) && !LegacyInstalled(Fresh())
    ensures EntryAt(Fresh(), SKILL) == Plain(SKILL, Missing)
  {
    hide EntryAt, Fresh, FreshEntry, OwnershipProblem;
    FreshNames();
    ScopeNamed();
    FreshDirectory();
    forall path | path in DESTINATIONS[1..] + LEGACY_DESTINATIONS ensures EntryAt(Fresh(), path) == Plain(path, Missing) {
      FreshFile(path);
    }
    NothingInstalled(Fresh());
    assert SKILL in DESTINATIONS[1..] + LEGACY_DESTINATIONS by {
      assert (DESTINATIONS[1..] + LEGACY_DESTINATIONS)[0] == SKILL;
    }
  }

  lemma FreshDirectory()
    ensures FreshEntry(SKILL_DIRECTORY) == Plain(SKILL_DIRECTORY, Missing)
    ensures FreshEntry(LEGACY_DIRECTORY) == Plain(LEGACY_DIRECTORY, Missing)
  {
    ScopeLengths();
    FileLengths();
  }

  lemma FreshFile(path: Path)
    requires path in DESTINATIONS[1..] + LEGACY_DESTINATIONS
    ensures path in SCOPE && FreshEntry(path) == Plain(path, Missing)
  {
    DestinationsApart();
    LegacyInScope();
    ScopeLengths();
    FileLengths();
    LegacyLengths();
  }

  lemma FreshIsPlanned(rootIdentity: Identity, source: Source, seed: string)
    requires ValidSeed(seed) && ValidSource(source)
    ensures FirstProblem(source, Fresh()).None? && PlanActivation(rootIdentity, source, Fresh(), seed).Previewed?
  {
    hide EntryAt, Fresh, ValidSource, DirectoriesProblem, AdoptedProblem, AdoptionProblem, OwnershipProblem, SpanOf, BuildPlan, Covered;
    FreshNames();
    FreshDirectories();
    FreshAdopted();
    FreshOwnership();
    CurrentPrefix();
    FreshAgents(CURRENT);
    FreshAgents(LEGACY);
    CombineProblems(source, Fresh());
    NotInPlace(source, Fresh());
  }

  lemma NotInPlace(source: Source, paths: seq<PathObservation>)
    requires EntryAt(paths, SKILL) == Plain(SKILL, Missing)
    ensures !AllInPlace(paths, Payloads(source, paths))
  {
    hide EntryAt, DesiredAgents, DesiredSkill, DesiredSnapshot, PlannedMode;
    assert Payloads(source, paths)[1].path == SKILL;
    assert Payloads(source, paths)[1] in Payloads(source, paths);
  }

  /** A skill that is a bare byte order mark: accepted, planned, installed, and then a conflict. */
  lemma BareMarkDoesNotSettle(rootIdentity: Identity, seed: string)
    requires ValidSeed(seed)
    ensures var source := SourceWith(MARK, "b\n"); var later := Installation(source, Fresh());
      && ValidSource(source) && PlanActivation(rootIdentity, source, Fresh(), seed).Previewed?
      && ObservesInstalled(source, Fresh(), later)
      && PlanActivation(rootIdentity, source, later, seed) == Conflict(SKILL_DIRECTORY)
  {
    hide PlanActivation, ObservesInstalled, Installation, Fresh, ValidSource, OnlyMark, FirstProblem, Utf8.Valid;
    var source := SourceWith(MARK, "b\n");
    MarkIsValid();
    SourceIsValid(MARK, "b\n");
    FreshNames();
    FreshIsPlanned(rootIdentity, source, seed);
    InstallationIsObserved(source, Fresh());
    SecondPlanConflicts(rootIdentity, source, Fresh(), Installation(source, Fresh()), seed);
  }

  lemma LegacyLineIsMarked()
    ensures !Unmarked(LEGACY, LinesOf(LEGACY_BLOCK))
  {
    var line := "<!-- ForgeFlow Codex: begin -->";
    assert LEGACY_BLOCK == line + "\n";
    assert |LEGACY_BLOCK| == 32 && LEGACY_BLOCK[31] == '\n';
    LineEndIs(LEGACY_BLOCK, 0, 31);
    assert LEGACY_BLOCK[0..32] == LEGACY_BLOCK;
    assert Text(LEGACY_BLOCK) == line;
    CurrentPrefix();
    assert OccursAt(line, LEGACY.prefix, 0);
  }

  lemma LegacyBlockIsAscii()
    ensures Utf8.Ascii(LEGACY_BLOCK) && LEGACY_BLOCK != "" && LEGACY_BLOCK[|LEGACY_BLOCK| - 1] == '\n'
    ensures forall c <- LEGACY_BLOCK :: c != 'P'
  {
  }

  /** A block with a legacy marker line: accepted, planned, installed, and then a conflict. */
  lemma LegacyLineDoesNotSettle(rootIdentity: Identity, seed: string)
    requires ValidSeed(seed)
    ensures var source := SourceWith("s\n", LEGACY_BLOCK); var later := Installation(source, Fresh());
      && ValidSource(source) && PlanActivation(rootIdentity, source, Fresh(), seed).Previewed?
      && ObservesInstalled(source, Fresh(), later)
      && PlanActivation(rootIdentity, source, later, seed) == Conflict(AGENTS)
  {
    hide PlanActivation, ObservesInstalled, Installation, Fresh, ValidSource, FirstProblem, Utf8.Valid, Unmarked, Utf8.Ascii;
    var source := SourceWith("s\n", LEGACY_BLOCK);
    ShortIsAscii();
    LegacyBlockIsAscii();
    SourceIsValid("s\n", LEGACY_BLOCK);
    FreshNames();
    FreshIsPlanned(rootIdentity, source, seed);
    InstallationIsObserved(source, Fresh());
    LegacyLineIsMarked();
    SecondPlanConflicts(rootIdentity, source, Fresh(), Installation(source, Fresh()), seed);
  }

  lemma ShortIsAscii()
    ensures Utf8.Valid("s\n") && !OnlyMark("s\n")
  {
    Utf8.AsciiDecodes("s\n");
  }
}
