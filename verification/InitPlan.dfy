/** Init planning from captured facts only (packages/core/src/init.ts:83-211, 259-384, 694-909). */
module InitPlan {
  import opened Foundations
  import opened MutationModel
  import opened MutationPlan
  import opened MutationScope
  import opened StagePaths
  import opened TextPatterns

  const PROTOCOL_VERSION := "0.10.0"
  const ADOPTION_MARKER: Path := "specs/.praxisbound-adoption"
  const LEGACY_MARKER: Path := "specs/.forgeflow-adoption"
  const STAGE_TAG := ".praxisbound-install."

  const STORY: Path := "specs/stories/_template/story.md"
  const ACCEPTANCE: Path := "specs/stories/_template/acceptance.md"
  const TASK: Path := "specs/stories/_template/task.md"
  const ENTRY: Path := "guidance/ENTRY.md"
  const PRINCIPLES: Path := "guidance/PRINCIPLES.md"
  const DECISIONS: Path := "guidance/DECISIONS.md"
  const PRACTICES: Path := "guidance/PRACTICES.md"

  const FRESH_PAYLOADS: seq<Path> :=
    ["AGENTS.md", STORY, ACCEPTANCE, TASK, ENTRY, PRINCIPLES, DECISIONS, PRACTICES]

  function Payloads(mode: InitMode): seq<Path> {
    if mode.Upgrade? then [STORY, ACCEPTANCE, TASK] else FRESH_PAYLOADS
  }

  function Destinations(mode: InitMode): seq<Path> {
    if mode.Upgrade? then Payloads(mode) + [LEGACY_MARKER, ADOPTION_MARKER] else Payloads(mode) + [ADOPTION_MARKER]
  }

  datatype SnapshotPayload = SnapshotPayload(path: Path, digest: Digest)

  datatype InitSnapshot = InitSnapshot(
    protocolVersion: string,
    provenance: string,
    revision: string,
    snapshotDigest: Digest,
    payloads: seq<SnapshotPayload>)

  predicate ValidRevision(revision: string) {
    revision == "unknown" || Hash(WithoutSuffix(revision, "-dirty"))
  }

  /** The first problem with the packaged payload list, looking at entries in order. */
  predicate ValidPayloads(payloads: seq<SnapshotPayload>, seen: set<Path>)
    decreases |payloads|
  {
    payloads == [] ||
    (payloads[0].path in FRESH_PAYLOADS && payloads[0].path !in seen && payloads[0].digest.Sha256? &&
     ValidPayloads(payloads[1..], seen + {payloads[0].path}))
  }

  predicate ValidSnapshot(snapshot: InitSnapshot) {
    && snapshot.protocolVersion == PROTOCOL_VERSION
    && snapshot.provenance != ""
    && ValidRevision(snapshot.revision)
    && snapshot.snapshotDigest.Sha256?
    && |snapshot.payloads| == |FRESH_PAYLOADS|
    && ValidPayloads(snapshot.payloads, {})
  }

  function AdoptionMarker(snapshot: InitSnapshot): Bytes {
    "version=" + snapshot.protocolVersion + "\nrevision=" + snapshot.revision + "\n"
  }

  function PayloadDigest(payloads: seq<SnapshotPayload>, path: Path): Digest {
    if payloads == [] then Malformed("undefined")
    else
      var last := payloads[|payloads| - 1];
      if last.path == path then last.digest else PayloadDigest(payloads[..|payloads| - 1], path)
  }

  // ---------------------------------------------------------------------
  // Refusals
  // ---------------------------------------------------------------------

  datatype Problem =
    | SnapshotInvalid | InvalidObservations | UnsafeManagedDirectory | UnsafeManagedPath
    | UpgradeUnavailable | MarkerAmbiguous | LegacyMarkerInvalid | ManagedConflict

  datatype PlanResult = Preview(plan: Plan) | Rejected(problem: Problem, path: Option<Path>)

  predicate UnsafeDirectory(observed: seq<PathObservation>, path: Path) {
    match FindPrecondition(observed, path)
    case None => true
    case Some(entry) =>
      || entry.kind == Symlink || entry.kind == Other || entry.kind == Unconfirmable
      || (entry.kind == Directory &&
          (entry.readable != Some(true) || entry.searchable != Some(true) || entry.identity.None?))
  }

  predicate UnsafeDestination(observed: seq<PathObservation>, path: Path) {
    match FindPrecondition(observed, path)
    case None => true
    case Some(entry) =>
      || entry.kind == Symlink || entry.kind == Directory || entry.kind == Other || entry.kind == Unconfirmable
      || (entry.kind == File &&
          (entry.readable != Some(true) || entry.digest.None? || !entry.digest.value.Sha256?))
  }

  function FirstUnsafe(paths: seq<Path>, unsafe: Path -> bool): (r: Option<Path>)
    ensures r.None? <==> forall path <- paths :: !unsafe(path)
    ensures r.Some? ==> r.value in paths && unsafe(r.value)
  {
    if paths == [] then None
    else if unsafe(paths[0]) then Some(paths[0])
    else FirstUnsafe(paths[1..], unsafe)
  }

  function KindOf(observed: seq<PathObservation>, path: Path): Option<Kind> {
    match FindPrecondition(observed, path)
    case None => None
    case Some(entry) => Some(entry.kind)
  }

  function SkipCarriageReturn(text: string): string {
    if text != "" && text[0] == '\r' then text[1..] else text
  }

  /** version=0.9.0 and a revision on two lines, each ended by LF or CRLF, the last end optional. */
  predicate ValidLegacyText(text: string) {
    match WithoutPrefix(text, "version=0.9.0")
    case None => false
    case Some(rest) =>
      match WithoutPrefix(SkipCarriageReturn(rest), "\nrevision=")
      case None => false
      case Some(revision) => ValidRevision(WithoutSuffix(WithoutSuffix(revision, "\n"), "\r"))
  }

  predicate ValidLegacyMarker(observed: seq<PathObservation>) {
    match FindPrecondition(observed, LEGACY_MARKER)
    case None => false
    case Some(entry) => entry.kind == File && entry.text.Some? && ValidLegacyText(entry.text.value)
  }

  function ModeProblem(mode: InitMode, observed: seq<PathObservation>): Option<(Problem, Option<Path>)> {
    match mode
    case Upgrade =>
      if KindOf(observed, "specs/stories") != Some(Directory) then Some((UpgradeUnavailable, Some("specs/stories")))
      else if KindOf(observed, ADOPTION_MARKER) != Some(Missing) && KindOf(observed, LEGACY_MARKER) != Some(Missing) then
        Some((MarkerAmbiguous, None))
      else if KindOf(observed, LEGACY_MARKER) != Some(Missing) && !ValidLegacyMarker(observed) then
        Some((LegacyMarkerInvalid, Some(LEGACY_MARKER)))
      else None
    case Safe =>
      var conflict := FirstUnsafe(Destinations(mode), path => KindOf(observed, path) == Some(File));
      if conflict.Some? then Some((ManagedConflict, conflict)) else None
    case Force => None
  }

  // ---------------------------------------------------------------------
  // The plan
  // ---------------------------------------------------------------------

  function PlannedEffect(snapshot: InitSnapshot, observed: seq<PathObservation>, path: Path): Effect {
    if path == LEGACY_MARKER then Effect(Remove, path, Sha256(""), None)
    else
      Effect(if KindOf(observed, path) == Some(File) then Replace else Install, path,
             if path == ADOPTION_MARKER then Sha256(AdoptionMarker(snapshot)) else PayloadDigest(snapshot.payloads, path),
             None)
  }

  /** The legacy marker is an effect only when it is there. */
  function EffectDestinations(mode: InitMode, observed: seq<PathObservation>): seq<Path> {
    if mode.Upgrade? && KindOf(observed, LEGACY_MARKER) != Some(File)
    then Payloads(mode) + [ADOPTION_MARKER]
    else Destinations(mode)
  }

  function PlannedEffects(snapshot: InitSnapshot, observed: seq<PathObservation>, paths: seq<Path>): (effects: seq<Effect>)
    ensures |effects| == |paths|
    ensures forall i :: 0 <= i < |paths| ==> effects[i] == PlannedEffect(snapshot, observed, paths[i])
  {
    seq(|paths|, i requires 0 <= i < |paths| => PlannedEffect(snapshot, observed, paths[i]))
  }

  function Captured(observed: seq<PathObservation>, paths: seq<Path>): (entries: seq<PathObservation>)
    requires forall path <- paths :: FindPrecondition(observed, path).Some?
    ensures |entries| == |paths|
    ensures forall i :: 0 <= i < |paths| ==> entries[i].path == paths[i] && entries[i] in observed
    ensures forall i :: 0 <= i < |paths| ==> Some(entries[i]) == FindPrecondition(observed, paths[i])
  {
    seq(|paths|, i requires 0 <= i < |paths| =>
      assert paths[i] in paths; FindPrecondition(observed, paths[i]).value)
  }

  function Stages(paths: seq<Path>, seed: string): (stages: seq<Path>)
    requires ValidSeed(seed)
    ensures |stages| == |paths|
    ensures forall i :: 0 <= i < |paths| ==> stages[i] == StagePath(STAGE_TAG, paths[i], seed)
  {
    seq(|paths|, i requires 0 <= i < |paths| => StagePath(STAGE_TAG, paths[i], seed))
  }

  function BuildPlan(mode: InitMode, rootIdentity: Identity, snapshot: InitSnapshot, observed: seq<PathObservation>,
                     seed: string, managed: seq<Path>, paths: seq<Path>): Plan
    requires ValidSeed(seed)
    requires forall path <- managed :: FindPrecondition(observed, path).Some?
  {
    var body := PlanBody(
      Init(mode), rootIdentity, snapshot.protocolVersion, snapshot.provenance, snapshot.revision,
      Some(snapshot.snapshotDigest), Captured(observed, managed),
      Stages(paths, seed), PlannedEffects(snapshot, observed, paths), ADOPTION_MARKER);
    Plan(body, PlanHash(body))
  }

  /** The first reason to refuse a request, in the order the checks are made. */
  function Screen(mode: InitMode, snapshot: InitSnapshot, observed: seq<PathObservation>): Option<(Problem, Option<Path>)> {
    if !ValidSnapshot(snapshot) then Some((SnapshotInvalid, None))
    else if !Unique(ObservedPaths(observed)) then Some((InvalidObservations, None))
    else
      var directory := FirstUnsafe(Directories(mode), path => UnsafeDirectory(observed, path));
      var destination := FirstUnsafe(Destinations(mode), path => UnsafeDestination(observed, path));
      if directory.Some? then Some((UnsafeManagedDirectory, directory))
      else if destination.Some? then Some((UnsafeManagedPath, destination))
      else ModeProblem(mode, observed)
  }

  lemma ScreenedPaths(mode: InitMode, snapshot: InitSnapshot, observed: seq<PathObservation>)
    requires Screen(mode, snapshot, observed).None?
    ensures forall path <- Directories(mode) :: !UnsafeDirectory(observed, path)
    ensures forall path <- Destinations(mode) :: !UnsafeDestination(observed, path)
  {
    var unsafeDirectory := path => UnsafeDirectory(observed, path);
    var unsafeDestination := path => UnsafeDestination(observed, path);
    assert FirstUnsafe(Directories(mode), unsafeDirectory).None?;
    assert FirstUnsafe(Destinations(mode), unsafeDestination).None?;
    forall path | path in Directories(mode) ensures !UnsafeDirectory(observed, path) {
      assert !unsafeDirectory(path);
    }
    forall path | path in Destinations(mode) ensures !UnsafeDestination(observed, path) {
      assert !unsafeDestination(path);
    }
  }

  lemma SafeObservations(observed: seq<PathObservation>, directories: seq<Path>, destinations: seq<Path>)
    requires forall path <- directories :: !UnsafeDirectory(observed, path)
    requires forall path <- destinations :: !UnsafeDestination(observed, path)
    ensures forall path <- directories + destinations :: FindPrecondition(observed, path).Some?
    ensures forall path <- destinations ::
      var kind := FindPrecondition(observed, path).value.kind; kind == File || kind == Missing
  {
  }

  lemma ScreenedObservations(mode: InitMode, snapshot: InitSnapshot, observed: seq<PathObservation>)
    requires Screen(mode, snapshot, observed).None?
    ensures forall path <- Directories(mode) + Destinations(mode) :: FindPrecondition(observed, path).Some?
    ensures forall path <- Destinations(mode) ::
      var kind := FindPrecondition(observed, path).value.kind; kind == File || kind == Missing
  {
    ScreenedPaths(mode, snapshot, observed);
    SafeObservations(observed, Directories(mode), Destinations(mode));
  }

  /** `seed` is the hexadecimal hash of the plan's inputs. */
  function PlanMutation(mode: InitMode, rootIdentity: Identity, snapshot: InitSnapshot,
                        observed: seq<PathObservation>, seed: string): PlanResult
    requires ValidSeed(seed)
  {
    var problem := Screen(mode, snapshot, observed);
    if problem.Some? then Rejected(problem.value.0, problem.value.1)
    else
      ScreenedObservations(mode, snapshot, observed);
      Preview(BuildPlan(mode, rootIdentity, snapshot, observed, seed,
                        Directories(mode) + Destinations(mode), EffectDestinations(mode, observed)))
  }

  // ---------------------------------------------------------------------
  // Every plan is well formed
  // ---------------------------------------------------------------------

  lemma DirectoryLengths()
    ensures |"specs"| == 5 && |"specs/stories"| == 13 && |"specs/stories/_template"| == 23 && |"guidance"| == 8
  {
  }

  lemma TemplateLengths()
    ensures |STORY| == 32 && |ACCEPTANCE| == 37 && |TASK| == 31
  {
  }

  lemma MarkerLengths()
    ensures |LEGACY_MARKER| == 25 && |ADOPTION_MARKER| == 27 && |"AGENTS.md"| == 9
  {
  }

  lemma GuidanceLengths()
    ensures |ENTRY| == 17 && |PRINCIPLES| == 22 && |DECISIONS| == 21 && |PRACTICES| == 21
    ensures DECISIONS != PRACTICES
  {
    assert DECISIONS[9] == 'D' && PRACTICES[9] == 'P';
  }

  /** Managed paths differ in length, except for two that differ in their tenth character. */
  function Mark(path: Path): int {
    if path == PRACTICES then 0 else |path|
  }

  lemma DistinctByMark(paths: seq<Path>, marks: seq<int>)
    requires |paths| == |marks| && Distinct(marks)
    requires forall i :: 0 <= i < |paths| ==> Mark(paths[i]) == marks[i]
    ensures Distinct(paths)
  {
  }

  lemma UpgradePathsDiffer()
    ensures Distinct(Directories(Upgrade) + Destinations(Upgrade))
  {
    DirectoryLengths();
    TemplateLengths();
    MarkerLengths();
    GuidanceLengths();
    DistinctByMark(Directories(Upgrade) + Destinations(Upgrade), [5, 13, 23, 32, 37, 31, 25, 27]);
  }

  lemma FreshPathsDiffer()
    ensures Distinct(Directories(Safe) + Destinations(Safe))
  {
    DirectoryLengths();
    TemplateLengths();
    MarkerLengths();
    GuidanceLengths();
    DistinctByMark(Directories(Safe) + Destinations(Safe), [5, 13, 23, 8, 9, 32, 37, 31, 17, 22, 21, 0, 27]);
  }

  lemma ManagedPathsDiffer(mode: InitMode)
    ensures Distinct(Directories(mode) + Destinations(mode))
    ensures forall path <- Directories(mode) + Destinations(mode) :: |path| <= 37
    ensures forall path <- Destinations(mode) :: 9 <= |path|
  {
    UpgradePathsDiffer();
    FreshPathsDiffer();
    DirectoryLengths();
    TemplateLengths();
    MarkerLengths();
    GuidanceLengths();
  }

  lemma WithoutMiddle(front: seq<Path>, middle: Path, last: Path)
    requires Distinct(front + [middle, last])
    ensures Distinct(front + [last])
  {
    var long, short := front + [middle, last], front + [last];
    forall i, j | 0 <= i < j < |short| ensures short[i] != short[j] {
      assert short[i] == long[i];
      assert j < |front| ==> short[j] == long[j];
      assert long[|front| + 1] == last;
    }
  }

  lemma DistinctParts(left: seq<Path>, right: seq<Path>)
    requires Distinct(left + right)
    ensures Distinct(left) && Distinct(right)
    ensures forall path <- left :: path !in right
  {
    var all := left + right;
    forall i, j | 0 <= i < j < |left| ensures left[i] != left[j] {
      assert all[i] != all[j];
    }
    forall i, j | 0 <= i < j < |right| ensures right[i] != right[j] {
      assert all[|left| + i] != all[|left| + j];
    }
    forall i, j | 0 <= i < |left| && 0 <= j < |right| ensures left[i] != right[j] {
      assert all[i] != all[|left| + j];
    }
  }

  lemma EffectsAreDestinations(mode: InitMode, observed: seq<PathObservation>)
    requires Distinct(Destinations(mode))
    ensures var paths := EffectDestinations(mode, observed);
      Distinct(paths) && forall path <- paths :: path in Destinations(mode)
  {
    var paths, destinations := EffectDestinations(mode, observed), Destinations(mode);
    if mode.Upgrade? && KindOf(observed, LEGACY_MARKER) != Some(File) {
      WithoutMiddle(Payloads(mode), LEGACY_MARKER, ADOPTION_MARKER);
      forall path | path in paths ensures path in destinations {
        assert path in Payloads(mode) || path == ADOPTION_MARKER;
        assert destinations[|destinations| - 1] == ADOPTION_MARKER;
        assert forall i :: 0 <= i < |Payloads(mode)| ==> destinations[i] == Payloads(mode)[i];
      }
    }
  }

  lemma LastEffectIsMarker(mode: InitMode, observed: seq<PathObservation>)
    ensures var paths := EffectDestinations(mode, observed);
      paths != [] && paths[|paths| - 1] == ADOPTION_MARKER
    ensures ADOPTION_MARKER != LEGACY_MARKER
  {
    MarkerLengths();
  }

  lemma StagesAreFresh(paths: seq<Path>, managed: seq<Path>, seed: string)
    requires ValidSeed(seed) && Distinct(paths)
    requires forall path <- paths :: 9 <= |path|
    requires forall path <- managed :: |path| <= 37
    ensures Distinct(Stages(paths, seed))
    ensures forall stage <- Stages(paths, seed) :: stage !in managed
  {
    StageMark(STAGE_TAG, seed);
    var mark := STAGE_TAG + seed[..16] + "-";
    forall i, j | 0 <= i < j < |paths| ensures Stages(paths, seed)[i] != Stages(paths, seed)[j] {
      if BesideName(paths[i], mark) == BesideName(paths[j], mark) {
        BesideNameInjective(paths[i], paths[j], mark);
      }
    }
    forall i | 0 <= i < |paths| ensures |Stages(paths, seed)[i]| > 37 {
      BesideNameSplits(paths[i], mark);
      assert paths[i] in paths;
    }
  }

  /** The shape of a plan, from the lists it was built from. */
  lemma WellFormedFromParts(plan: Plan, directories: seq<Path>, destinations: seq<Path>, paths: seq<Path>)
    requires plan.planId == PlanHash(plan.body)
    requires PreconditionPaths(plan) == directories + destinations && EffectPaths(plan) == paths
    requires Distinct(directories + destinations)
    requires Distinct(paths) && (forall path <- paths :: path in destinations)
    requires paths != [] && paths[|paths| - 1] == plan.body.commitMarker
    requires !plan.body.effects[|plan.body.effects| - 1].kind.Remove?
    requires |plan.body.stagePreconditions| == |paths| && Distinct(plan.body.stagePreconditions)
    requires forall stage <- plan.body.stagePreconditions :: stage !in directories + destinations
    requires forall i :: |directories| <= i < |directories + destinations| ==>
      plan.body.preconditions[i].kind == File || plan.body.preconditions[i].kind == Missing
    ensures WellFormedPlan(plan)
  {
    forall path | path in EffectPaths(plan)
      ensures exists entry :: entry in plan.body.preconditions && entry.path == path && (entry.kind == File || entry.kind == Missing)
    {
      var i :| 0 <= i < |destinations| && destinations[i] == path;
      assert PreconditionPaths(plan)[|directories| + i] == path;
      assert plan.body.preconditions[|directories| + i] in plan.body.preconditions;
    }
  }

  lemma BuiltPlan(mode: InitMode, rootIdentity: Identity, snapshot: InitSnapshot, observed: seq<PathObservation>,
                  seed: string, directories: seq<Path>, destinations: seq<Path>, paths: seq<Path>)
    requires ValidSeed(seed)
    requires forall path <- directories + destinations :: FindPrecondition(observed, path).Some?
    requires forall path <- destinations ::
      FindPrecondition(observed, path).value.kind == File || FindPrecondition(observed, path).value.kind == Missing
    requires Distinct(directories + destinations) && (forall path <- directories :: path !in destinations)
    requires Distinct(paths) && (forall path <- paths :: path in destinations)
    requires paths != [] && paths[|paths| - 1] == ADOPTION_MARKER && ADOPTION_MARKER != LEGACY_MARKER
    requires Distinct(Stages(paths, seed)) && (forall stage <- Stages(paths, seed) :: stage !in directories + destinations)
    ensures var plan := BuildPlan(mode, rootIdentity, snapshot, observed, seed, directories + destinations, paths);
      && WellFormedPlan(plan)
      && PreconditionPaths(plan) == directories + destinations
      && (forall path <- directories :: path !in EffectPaths(plan))
  {
    var managed := directories + destinations;
    var plan := BuildPlan(mode, rootIdentity, snapshot, observed, seed, managed, paths);
    assert PreconditionPaths(plan) == managed;
    assert EffectPaths(plan) == paths;
    forall i | |directories| <= i < |managed|
      ensures plan.body.preconditions[i].kind == File || plan.body.preconditions[i].kind == Missing
    {
      assert managed[i] == destinations[i - |directories|];
    }
    WellFormedFromParts(plan, directories, destinations, paths);
  }

  /** Whatever was observed, an accepted request yields a plan the executor can rely on. */
  lemma PlanIsWellFormed(mode: InitMode, rootIdentity: Identity, snapshot: InitSnapshot,
                         observed: seq<PathObservation>, seed: string)
    requires ValidSeed(seed) && PlanMutation(mode, rootIdentity, snapshot, observed, seed).Preview?
    ensures var plan := PlanMutation(mode, rootIdentity, snapshot, observed, seed).plan;
      && WellFormedPlan(plan) && plan.body.operation == Init(mode)
      && PreconditionPaths(plan) == Directories(mode) + Destinations(mode)
      && (forall path <- Directories(mode) :: path !in EffectPaths(plan))
  {
    ScreenedObservations(mode, snapshot, observed);
    ManagedPathsDiffer(mode);
    var directories, destinations := Directories(mode), Destinations(mode);
    DistinctParts(directories, destinations);
    EffectsAreDestinations(mode, observed);
    LastEffectIsMarker(mode, observed);
    var paths := EffectDestinations(mode, observed);
    StagesAreFresh(paths, directories + destinations, seed);
    BuiltPlan(mode, rootIdentity, snapshot, observed, seed, directories, destinations, paths);
  }
}
