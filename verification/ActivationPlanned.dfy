/** Every Activation plan is one the executor can rely on, and its payloads are the ones it asks for. */
module ActivationPlanned {
  import opened Foundations
  import opened MutationModel
  import opened MutationPlan
  import opened MutationPhases
  import opened MutationVerdict
  import opened StagePaths
  import opened ActivationScope
  import opened ActivationFolder
  import opened ActivationPlan
  import Executor = ActivationMutation

  // ---------------------------------------------------------------------
  // The covered surface
  // ---------------------------------------------------------------------

  /** A covered surface is the scope and nothing else. */
  lemma SurfaceIsScope(paths: seq<PathObservation>)
    requires Covered(paths)
    ensures Distinct(ObservedPaths(paths)) && ToSet(ObservedPaths(paths)) == ToSet(SCOPE)
    ensures forall path <- ObservedPaths(paths) :: path in SCOPE
  {
    ScopeDiffers();
    UniqueIffDistinct(ObservedPaths(paths));
    UniqueIffDistinct(SCOPE);
    SubsetOfSameSize(ToSet(SCOPE), ToSet(ObservedPaths(paths)));
    forall path | path in ObservedPaths(paths) ensures path in SCOPE {
      assert path in ToSet(SCOPE);
    }
  }

  /** The entry of a path in the scope is recorded as a precondition. */
  lemma EntryRecorded(paths: seq<PathObservation>, path: Path) returns (entry: PathObservation)
    requires Covered(paths) && path in SCOPE
    ensures entry in Recorded(paths, true) && entry.path == path && entry.kind == EntryAt(paths, path).kind
    ensures EntryAt(paths, path).path == path
  {
    FoundIffListed(paths, path);
    var observed := EntryAt(paths, path);
    var i :| 0 <= i < |paths| && paths[i] == observed;
    entry := Recorded(paths, true)[i];
  }

  // ---------------------------------------------------------------------
  // Stages
  // ---------------------------------------------------------------------

  lemma StageLength(path: Path, seed: string)
    requires ValidSeed(seed)
    ensures |StageFor(path, seed)| == |path| + 39
  {
    ScopeLengths();
    TagLength();
    if !(LEGACY_DIRECTORY + "/" <= path) {
      StageMark(STAGE_TAG, seed);
      BesideNameSplits(path, STAGE_TAG + seed[..16] + "-");
    }
  }

  lemma TagLength()
    ensures |STAGE_TAG| == 22 && '/' !in STAGE_TAG && STAGE_TAG[7] == 'b'
    ensures |".agents/skills/"| == 15 && |"-forgeflow-"| == 11
  {
  }

  lemma AgentsStage(seed: string)
    requires ValidSeed(seed)
    ensures StageFor(AGENTS, seed) != SNAPSHOT
  {
    FileLengths();
    ScopeLengths();
    TagLength();
    SeparatorIsUnique(AGENTS, -1);
    assert StageFor(AGENTS, seed)[7] == STAGE_TAG[7];
    assert SNAPSHOT[7] == SKILL_DIRECTORY[7] == '/';
  }

  lemma StageIsFresh(path: Path, seed: string)
    requires ValidSeed(seed) && (path == AGENTS || |path| > 9)
    ensures StageFor(path, seed) !in SCOPE
  {
    StageLength(path, seed);
    ScopeDiffers();
    if path == AGENTS {
      FileLengths();
      AgentsStage(seed);
      OnlySnapshotIsThatLong(StageFor(path, seed));
    }
  }

  lemma StagesAreFresh(paths: seq<Path>, lengths: seq<int>, seed: string)
    requires ValidSeed(seed) && |paths| == |lengths| && Distinct(lengths)
    requires forall i :: 0 <= i < |paths| ==> |paths[i]| == lengths[i] && (paths[i] == AGENTS || lengths[i] > 9)
    ensures Distinct(StagesFor(paths, seed))
    ensures forall stage <- StagesFor(paths, seed) :: stage !in SCOPE
  {
    forall i | 0 <= i < |paths|
      ensures |StagesFor(paths, seed)[i]| == lengths[i] + 39 && StagesFor(paths, seed)[i] !in SCOPE
    {
      StageLength(paths[i], seed);
      StageIsFresh(paths[i], seed);
    }
  }

  lemma OnlySnapshotIsThatLong(stage: Path)
    requires |stage| == 48 && stage != SNAPSHOT
    ensures stage !in SCOPE
  {
    ScopeLengths();
    FileLengths();
    LegacyLengths();
  }

  // ---------------------------------------------------------------------
  // Effects
  // ---------------------------------------------------------------------

  lemma Screened(source: Source, paths: seq<PathObservation>)
    requires FirstProblem(source, paths).None?
    ensures ValidSource(source) && Covered(paths)
    ensures DirectoriesProblem(paths, DIRECTORIES).None? && AdoptedProblem(paths).None?
    ensures AdoptionProblem(paths).None? && OwnershipProblem(paths).None? && SectionsProblem(paths).None?
    ensures InstalledProblem(paths).None? && LegacyProblem(paths).None?
  {
  }

  /** The files a plan may replace or install are files or absent; the ones it removes are files. */
  lemma DestinationKinds(paths: seq<PathObservation>)
    requires AdoptedProblem(paths).None? && OwnershipProblem(paths).None?
    ensures NonEmptyFile(EntryAt(paths, AGENTS))
    ensures forall path <- DESTINATIONS :: EntryAt(paths, path).kind == File || EntryAt(paths, path).kind == Missing
    ensures LegacyInstalled(paths) ==> forall path <- LEGACY_DESTINATIONS :: NonEmptyFile(EntryAt(paths, path))
  {
    assert UnsafeFile(paths, DESTINATIONS[1..]).None?;
    forall path | path in DESTINATIONS
      ensures EntryAt(paths, path).kind == File || EntryAt(paths, path).kind == Missing
    {
      assert path == AGENTS || path in DESTINATIONS[1..];
    }
  }

  function PlannedPaths(legacy: bool): seq<Path> {
    if legacy then LEGACY_DESTINATIONS + DESTINATIONS else DESTINATIONS
  }

  function PlannedLengths(legacy: bool): seq<int> {
    if legacy then [33, 45, 44, 9, 35, 47, 48] else [9, 35, 47, 48]
  }

  lemma PlannedPathsDiffer(legacy: bool)
    ensures var paths, lengths := PlannedPaths(legacy), PlannedLengths(legacy);
      && |paths| == |lengths| && Distinct(lengths)
      && (forall i :: 0 <= i < |paths| ==> |paths[i]| == lengths[i] && (paths[i] == AGENTS || lengths[i] > 9))
      && Distinct(paths) && paths[|paths| - 1] == SNAPSHOT
      && (forall path <- paths :: path in SCOPE)
      && LEGACY_DIRECTORY !in paths && (forall path <- CREATED_DIRECTORIES :: path !in paths)
  {
    ScopeLengths();
    FileLengths();
    LegacyLengths();
    DistinctByLength(PlannedPaths(legacy), PlannedLengths(legacy));
    assert forall path <- LEGACY_DESTINATIONS :: path in OBSERVED_FILES;
    assert forall path <- DESTINATIONS :: path in OBSERVED_FILES;
  }

  lemma EntryPath(paths: seq<PathObservation>, path: Path)
    requires Covered(paths) && path in SCOPE
    ensures EntryAt(paths, path).path == path
  {
    var entry := EntryRecorded(paths, path);
  }

  lemma LegacyInScope()
    ensures LEGACY_SKILL in SCOPE && LEGACY_WORKFLOW in SCOPE && LEGACY_SNAPSHOT in SCOPE
  {
    assert LEGACY_DESTINATIONS[0] in OBSERVED_FILES && LEGACY_DESTINATIONS[1] in OBSERVED_FILES;
    assert LEGACY_DESTINATIONS[2] in OBSERVED_FILES;
  }

  lemma ThreePaths(effects: seq<Effect>, a: Path, b: Path, c: Path)
    requires |effects| == 3 && effects[0].path == a && effects[1].path == b && effects[2].path == c
    ensures PathsOf(effects) == [a, b, c]
  {
  }

  lemma RemovalsNamed(paths: seq<PathObservation>)
    requires Covered(paths) && LegacyInstalled(paths)
    ensures PathsOf(Removals(paths)) == LEGACY_DESTINATIONS
  {
    LegacyInScope();
    EntryPath(paths, LEGACY_SKILL);
    EntryPath(paths, LEGACY_WORKFLOW);
    EntryPath(paths, LEGACY_SNAPSHOT);
    ThreePaths(Removals(paths), LEGACY_SKILL, LEGACY_WORKFLOW, LEGACY_SNAPSHOT);
  }

  lemma FromNamed(paths: seq<PathObservation>, agents: Bytes, skill: Bytes, workflow: Bytes, snapshot: Bytes,
                  skillMode: Mode, workflowMode: Mode)
    ensures ForDestinations(PayloadsFrom(paths, agents, skill, workflow, snapshot, skillMode, workflowMode))
  {
  }

  lemma PayloadsNamed(source: Source, paths: seq<PathObservation>)
    ensures ForDestinations(Payloads(source, paths))
  {
    FromNamed(paths, DesiredAgents(source, paths), DesiredSkill(source), source.workflow.bytes,
              DesiredSnapshot(source, paths), source.skill.mode, source.workflow.mode);
  }

  lemma PathsConcat(a: seq<Effect>, b: seq<Effect>)
    ensures PathsOf(a + b) == PathsOf(a) + PathsOf(b)
  {
  }

  predicate ForDestinations(payloads: seq<Planned>) {
    |payloads| == |DESTINATIONS| && forall i :: 0 <= i < |payloads| ==> payloads[i].path == DESTINATIONS[i]
  }

  lemma EffectsNamed(paths: seq<PathObservation>, payloads: seq<Planned>)
    requires Covered(paths) && ForDestinations(payloads)
    ensures PathsOf(EffectsFor(paths, payloads)) == PlannedPaths(LegacyInstalled(paths))
  {
    PathsConcat(Removals(paths), Placements(paths, payloads));
    assert PathsOf(Placements(paths, payloads)) == DESTINATIONS;
    if LegacyInstalled(paths) {
      RemovalsNamed(paths);
    }
  }

  /** Only legacy files are removed. */
  lemma RemovedEffects(paths: seq<PathObservation>, payloads: seq<Planned>, effect: Effect)
    requires Covered(paths) && effect in EffectsFor(paths, payloads) && effect.kind.Remove?
    ensures LegacyInstalled(paths) && effect.path in LEGACY_DESTINATIONS
  {
    assert effect !in Placements(paths, payloads);
    assert effect in Removals(paths);
    RemovalsNamed(paths);
    var i :| 0 <= i < |Removals(paths)| && Removals(paths)[i] == effect;
    assert PathsOf(Removals(paths))[i] == effect.path;
  }

  lemma SplitSlash(name: string)
    requires |name| > 1 && name[0] == '/' && '/' !in name[1..]
    ensures ParentPath(LEGACY_DIRECTORY + name) == LEGACY_DIRECTORY
  {
    ParentOfChild(LEGACY_DIRECTORY, name[1..]);
    assert LEGACY_DIRECTORY + name == LEGACY_DIRECTORY + "/" + name[1..];
  }

  lemma OneSlash(name: string)
    requires name == "/SKILL.md" || name == "/story-development.md" || name == "/.forgeflow-snapshot"
    ensures |name| > 1 && name[0] == '/' && '/' !in name[1..]
  {
  }

  lemma LegacyParent(name: string)
    requires name == "/SKILL.md" || name == "/story-development.md" || name == "/.forgeflow-snapshot"
    ensures ParentPath(LEGACY_DIRECTORY + name) == LEGACY_DIRECTORY
  {
    OneSlash(name);
    SplitSlash(name);
  }

  lemma LegacyParents()
    ensures forall path <- LEGACY_DESTINATIONS :: ParentPath(path) == LEGACY_DIRECTORY
  {
    LegacyParent("/SKILL.md");
    LegacyParent("/story-development.md");
    LegacyParent("/.forgeflow-snapshot");
  }

  // ---------------------------------------------------------------------
  // Well-formedness
  // ---------------------------------------------------------------------

  lemma PathsOfPlan(plan: Plan)
    ensures EffectPaths(plan) == PathsOf(plan.body.effects)
  {
  }

  lemma PlanShape(plan: Plan, legacy: bool, paths: seq<PathObservation>, seed: string)
    requires ValidSeed(seed) && Covered(paths) && plan.planId == PlanHash(plan.body)
    requires plan.body.preconditions == Recorded(paths, true) && PathsOf(plan.body.effects) == PlannedPaths(legacy)
    requires plan.body.stagePreconditions == StagesFor(PathsOf(plan.body.effects), seed)
    requires plan.body.commitMarker == SNAPSHOT
    requires !plan.body.effects[|plan.body.effects| - 1].kind.Remove?
    requires forall path <- PlannedPaths(legacy) :: EntryAt(paths, path).kind == File || EntryAt(paths, path).kind == Missing
    ensures WellFormedPlan(plan)
  {
    PathsOfPlan(plan);
    SurfaceIsScope(paths);
    PlannedPathsDiffer(legacy);
    StagesAreFresh(PlannedPaths(legacy), PlannedLengths(legacy), seed);
    assert PreconditionPaths(plan) == ObservedPaths(paths);
    forall path | path in EffectPaths(plan)
      ensures exists entry :: entry in plan.body.preconditions && entry.path == path && (entry.kind == File || entry.kind == Missing)
    {
      var entry := EntryRecorded(paths, path);
    }
  }

  lemma PlanMigrates(plan: Plan, paths: seq<PathObservation>, payloads: seq<Planned>)
    requires WellFormedPlan(plan) && plan.body.operation.Activation?
    requires plan.body.preconditions == Recorded(paths, true) && plan.body.effects == EffectsFor(paths, payloads)
    requires Covered(paths) && AdoptedProblem(paths).None? && OwnershipProblem(paths).None?
    requires ForDestinations(payloads)
    ensures WellFormedActivation(plan)
  {
    PathsOfPlan(plan);
    EffectsNamed(paths, payloads);
    PlannedPathsDiffer(LegacyInstalled(paths));
    DestinationKinds(paths);
    LegacyParents();
    forall effect | effect in plan.body.effects && effect.kind.Remove?
      ensures ParentPath(effect.path) == LEGACY_DIRECTORY && LegacyInstalled(paths)
      ensures exists entry :: entry in plan.body.preconditions && entry.path == effect.path && entry.kind == File
    {
      RemovedEffects(paths, payloads, effect);
      assert effect.path in OBSERVED_FILES;
      var entry := EntryRecorded(paths, effect.path);
    }
    if HasRemoval(plan) {
      assert LEGACY_DIRECTORY in DIRECTORIES;
      var entry := EntryRecorded(paths, LEGACY_DIRECTORY);
    }
  }

  /** Whatever was observed, an accepted request yields a plan the executor can rely on. */
  lemma PlanIsWellFormed(rootIdentity: Identity, source: Source, paths: seq<PathObservation>, seed: string)
    requires ValidSeed(seed) && PlanActivation(rootIdentity, source, paths, seed).Previewed?
    ensures WellFormedActivation(PlanActivation(rootIdentity, source, paths, seed).plan)
  {
    var payloads := Payloads(source, paths);
    var effects := EffectsFor(paths, payloads);
    var plan := BuildPlan(rootIdentity, source, paths, effects, seed);
    Problems(rootIdentity, source, paths, seed);
    Screened(source, paths);
    PayloadsNamed(source, paths);
    EffectsNamed(paths, payloads);
    DestinationKinds(paths);
    LastPlacement(paths, payloads);
    PlanShape(plan, LegacyInstalled(paths), paths, seed);
    PlanMigrates(plan, paths, payloads);
  }

  lemma Problems(rootIdentity: Identity, source: Source, paths: seq<PathObservation>, seed: string)
    requires ValidSeed(seed)
    requires var result := PlanActivation(rootIdentity, source, paths, seed); result.Previewed? || result.Unchanged?
    ensures FirstProblem(source, paths).None?
  {
    assert Reason(FirstProblem(source, paths));
  }

  lemma LastPlacement(paths: seq<PathObservation>, payloads: seq<Planned>)
    requires |payloads| == |DESTINATIONS|
    ensures var effects := EffectsFor(paths, payloads); !effects[|effects| - 1].kind.Remove?
  {
    var effects := EffectsFor(paths, payloads);
    assert effects[|effects| - 1] == Placements(paths, payloads)[|payloads| - 1];
  }

  // ---------------------------------------------------------------------
  // The payloads
  // ---------------------------------------------------------------------

  /** The payload of each path; a later one replaces an earlier one. */
  function PayloadMap(payloads: seq<Planned>): map<Path, Executor.PlannedPayload> {
    if payloads == [] then map[]
    else
      var last := payloads[|payloads| - 1];
      PayloadMap(payloads[..|payloads| - 1])[last.path := Executor.PlannedPayload(last.digest, last.bytes, last.mode)]
  }

  lemma {:induction false} PayloadMapped(payloads: seq<Planned>, i: nat)
    requires i < |payloads| && forall j, k :: 0 <= j < k < |payloads| ==> payloads[j].path != payloads[k].path
    ensures payloads[i].path in PayloadMap(payloads)
    ensures PayloadMap(payloads)[payloads[i].path] ==
            Executor.PlannedPayload(payloads[i].digest, payloads[i].bytes, payloads[i].mode)
    decreases |payloads|
  {
    if i < |payloads| - 1 {
      PayloadMapped(payloads[..|payloads| - 1], i);
    }
  }

  predicate Consistent(payload: Planned) {
    payload.digest == Sha256(payload.bytes) && ValidMode(payload.mode)
  }

  lemma SnapshotModeValid()
    ensures ValidMode(SNAPSHOT_MODE)
  {
  }

  lemma PayloadsConsistent(source: Source, paths: seq<PathObservation>)
    requires ValidSource(source) && NonEmptyFile(EntryAt(paths, AGENTS))
    ensures forall payload <- Payloads(source, paths) :: Consistent(payload)
  {
    SnapshotModeValid();
    FromConsistent(paths, DesiredAgents(source, paths), DesiredSkill(source), source.workflow.bytes,
                   DesiredSnapshot(source, paths), source.skill.mode, source.workflow.mode);
  }

  lemma FromConsistent(paths: seq<PathObservation>, agents: Bytes, skill: Bytes, workflow: Bytes, snapshot: Bytes,
                       skillMode: Mode, workflowMode: Mode)
    requires ValidMode(skillMode) && ValidMode(workflowMode) && ValidMode(SNAPSHOT_MODE)
    ensures forall payload <- PayloadsFrom(paths, agents, skill, workflow, snapshot, skillMode, workflowMode) ::
      Consistent(payload)
  {
  }

  lemma PayloadPathsDiffer(payloads: seq<Planned>)
    requires ForDestinations(payloads)
    ensures forall j, k :: 0 <= j < k < |payloads| ==> payloads[j].path != payloads[k].path
  {
    FileLengths();
    DistinctByLength(DESTINATIONS, [9, 35, 47, 48]);
  }

  lemma MappedAccepted(effect: Effect, payload: Planned, payloads: map<Path, Executor.PlannedPayload>)
    requires !effect.kind.Remove? && effect.path == payload.path && effect.digest == payload.digest
    requires effect.mode == Some(payload.mode) && Consistent(payload) && payload.path in payloads
    requires payloads[payload.path] == Executor.PlannedPayload(payload.digest, payload.bytes, payload.mode)
    ensures Executor.ContentFor(effect, payloads) == Some(Content(payload.bytes, payload.mode))
  {
  }

  lemma PlacementAccepted(paths: seq<PathObservation>, payloads: seq<Planned>, i: nat)
    requires ForDestinations(payloads) && i < |payloads| && Consistent(payloads[i])
    ensures Executor.ContentFor(Placement(paths, payloads[i]), PayloadMap(payloads)) ==
            Some(Content(payloads[i].bytes, payloads[i].mode))
  {
    PayloadPathsDiffer(payloads);
    PayloadMapped(payloads, i);
    MappedAccepted(Placement(paths, payloads[i]), payloads[i], PayloadMap(payloads));
  }

  /** The executor finds the payload of every planned effect, and no digest or mode disagrees. */
  lemma PayloadsAreAccepted(rootIdentity: Identity, source: Source, paths: seq<PathObservation>, seed: string)
    requires ValidSeed(seed) && PlanActivation(rootIdentity, source, paths, seed).Previewed?
    ensures var result := PlanActivation(rootIdentity, source, paths, seed);
      forall effect <- result.plan.body.effects :: Executor.ContentFor(effect, PayloadMap(result.payloads)).Some?
  {
    var payloads := Payloads(source, paths);
    Problems(rootIdentity, source, paths, seed);
    Screened(source, paths);
    DestinationKinds(paths);
    PayloadsNamed(source, paths);
    PayloadsConsistent(source, paths);
    forall effect | effect in EffectsFor(paths, payloads)
      ensures Executor.ContentFor(effect, PayloadMap(payloads)).Some?
    {
      EffectAccepted(paths, payloads, effect);
    }
  }

  lemma EffectAccepted(paths: seq<PathObservation>, payloads: seq<Planned>, effect: Effect)
    requires ForDestinations(payloads) && (forall payload <- payloads :: Consistent(payload))
    requires effect in EffectsFor(paths, payloads)
    ensures Executor.ContentFor(effect, PayloadMap(payloads)).Some?
  {
    if !effect.kind.Remove? {
      assert effect in Placements(paths, payloads);
      var i :| 0 <= i < |payloads| && Placements(paths, payloads)[i] == effect;
      PlacementAccepted(paths, payloads, i);
    }
  }
}
