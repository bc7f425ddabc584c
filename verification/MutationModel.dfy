/**
 Plans, filesystem places and execution observations shared by the Init and
 Activation mutations (packages/core/src/mutation.ts, init.ts, activation.ts).
 */
module MutationModel {
  import opened Foundations

  type Path = string

  /** File contents, one character per octet. */
  type Bytes = string

  /** The `dev:ino` pair that identifies one file or directory. */
  type Identity = nat

  /** A permission mode as the set of bits it grants; a umask removes bits. */
  type Mode = set<nat>

  predicate ValidMode(mode: Mode) {
    forall bit <- mode :: bit < 9
  }

  /** SHA-256 is injective here; `Malformed` is a digest text that is not 64 hex digits. */
  datatype Digest = Sha256(bytes: Bytes) | Malformed(text: string)

  datatype Kind = Missing | File | Directory | Symlink | Other | Unconfirmable

  datatype PathObservation = PathObservation(
    path: Path,
    kind: Kind,
    readable: Option<bool>,
    searchable: Option<bool>,
    digest: Option<Digest>,
    identity: Option<Identity>,
    mode: Option<Mode>,
    text: Option<Bytes>,
    members: Option<seq<Path>>)

  function Plain(path: Path, kind: Kind): PathObservation {
    PathObservation(path, kind, None, None, None, None, None, None, None)
  }

  datatype StageObservation = StageObservation(path: Path, kind: Kind)

  datatype ChangeKind = Install | Replace | Remove

  datatype Effect = Effect(kind: ChangeKind, path: Path, digest: Digest, mode: Option<Mode>)

  datatype InitMode = Safe | Force | Upgrade

  datatype Operation = Init(mode: InitMode) | Activation(adoption: string)

  datatype PlanBody = PlanBody(
    operation: Operation,
    rootIdentity: Identity,
    version: string,
    provenance: string,
    revision: string,
    sourceDigest: Option<Digest>,
    preconditions: seq<PathObservation>,
    stagePreconditions: seq<Path>,  // every entry has kind "missing"
    effects: seq<Effect>,
    commitMarker: Path)

  /** The plan identity is a hash of the canonical plan body; hashing is injective. */
  datatype PlanIdentity = PlanHash(body: PlanBody)

  datatype Plan = Plan(body: PlanBody, planId: PlanIdentity)

  function EffectPaths(plan: Plan): (paths: seq<Path>)
    ensures |paths| == |plan.body.effects|
    ensures forall i :: 0 <= i < |paths| ==> paths[i] == plan.body.effects[i].path
  {
    seq(|plan.body.effects|, i requires 0 <= i < |plan.body.effects| => plan.body.effects[i].path)
  }

  function ObservedPaths(observations: seq<PathObservation>): (paths: seq<Path>)
    ensures |paths| == |observations|
    ensures forall i :: 0 <= i < |paths| ==> paths[i] == observations[i].path
  {
    seq(|observations|, i requires 0 <= i < |observations| => observations[i].path)
  }

  function PreconditionPaths(plan: Plan): seq<Path> {
    ObservedPaths(plan.body.preconditions)
  }

  /** The first entry for a path. */
  function FindPrecondition(observations: seq<PathObservation>, path: Path): (r: Option<PathObservation>)
    ensures r.Some? ==> r.value in observations && r.value.path == path
    ensures r.None? ==> forall entry <- observations :: entry.path != path
  {
    if observations == [] then None
    else if observations[0].path == path then Some(observations[0])
    else FindPrecondition(observations[1..], path)
  }

  // ---------------------------------------------------------------------
  // Places in the target tree
  // ---------------------------------------------------------------------

  datatype SlotName = New | Restore | Original

  /** A managed path, a private stage directory, or a file inside a stage. */
  datatype Place =
    | Managed(path: Path)
    | Stage(path: Path)
    | Staged(stage: Path, slot: SlotName)

  datatype Node =
    | RegularFile(identity: Identity, bytes: Bytes, mode: Mode)
    | Folder(identity: Identity)
    | Special(identity: Identity)

  type Nodes = map<Place, Node>

  /** The position of the last slash within the first `end` characters, or -1. */
  function LastSeparatorBefore(path: Path, end: nat): (at: int)
    requires end <= |path|
    ensures -1 <= at < end
    ensures at >= 0 ==> path[at] == '/'
    ensures forall i :: at < i < end ==> path[i] != '/'
  {
    if end == 0 then -1
    else if path[end - 1] == '/' then end - 1
    else LastSeparatorBefore(path, end - 1)
  }

  function LastSeparator(path: Path): int {
    LastSeparatorBefore(path, |path|)
  }

  /** The directory part without its slash; "" is the target root. */
  function ParentPath(path: Path): Path {
    var at := LastSeparator(path);
    if at == -1 then "" else path[..at]
  }

  function ParentOf(place: Place): Place {
    match place
    case Managed(path) => Managed(ParentPath(path))
    case Stage(path) => Managed(ParentPath(path))
    case Staged(stage, _) => Stage(stage)
  }

  predicate ParentPresent(nodes: Nodes, place: Place) {
    var parent := ParentOf(place);
    parent == Managed("") || (parent in nodes && nodes[parent].Folder?)
  }

  /** Everything lies in a directory that is there. */
  predicate Planted(nodes: Nodes) {
    forall place <- nodes :: ParentPresent(nodes, place)
  }

  predicate EmptyFolder(nodes: Nodes, place: Place) {
    forall other <- nodes :: other == place || ParentOf(other) != place
  }

  // ---------------------------------------------------------------------
  // Execution observations
  // ---------------------------------------------------------------------

  datatype FailureStage = Precondition | Prepare | Apply | Recovery | Cleanup

  datatype FailureCode =
    | StalePlan | PayloadInvalid | StageCollision | PreparationFailed | Interrupted
    | ReplacementFailed | RestoreFailed | RecoveryCleanupFailed | CleanupFailed

  datatype Failure = Failure(stage: FailureStage, code: FailureCode, path: Option<Path>)

  datatype Observation = Observation(
    planId: PlanIdentity,
    committed: bool,
    prepared: seq<Path>,
    attempted: seq<Path>,
    applied: seq<Path>,
    recoveryAttempted: seq<Path>,
    restored: seq<Path>,
    unrecovered: seq<Path>,
    invalidated: seq<Path>,
    invalidationFailed: seq<Path>,
    retained: seq<Path>,
    cleanupResidue: seq<Path>,
    preconditionMismatches: seq<Path>,
    failure: Option<Failure>)

  function EmptyObservation(plan: Plan): Observation {
    Observation(plan.planId, false, [], [], [], [], [], [], [], [], [], [], [], None)
  }

  datatype Outcome =
    | ObservationInvalid
    | OperationRefused
    | RecoveryIncomplete
    | ApplyFailedRecovered
    | CleanupIncomplete
    | Applied
    | NoFinalState
}
