/** Activation planning from captured facts only (packages/core/src/activation.ts:238-345, 428-438, 605-1011). */
module ActivationPlan {
  import opened Foundations
  import opened MutationModel
  import opened MutationPlan
  import opened StagePaths
  import opened TextPatterns
  import opened MarkerSpan
  import opened ActivationScope
  import opened ActivationSnapshot
  import opened ActivationAgents
  import Utf8

  datatype Asset = Asset(bytes: Bytes, digest: Digest, mode: Mode)

  datatype Source = Source(
    version: string,
    revision: string,
    provenance: string,
    skill: Asset,
    workflow: Asset,
    agentBlock: Asset)

  datatype Planned = Planned(path: Path, digest: Digest, bytes: Bytes, mode: Mode)

  datatype Problem =
    | SnapshotInvalid | SurfaceInvalid | UnsafeManagedDirectory | DirectoryObservationInvalid | UnsafeManagedPath

  datatype PlanResult =
    | Refused(problem: Problem, at: Option<Path>)
    | Conflict(path: Path)
    | Unchanged(payloads: seq<Planned>)
    | Previewed(plan: Plan, payloads: seq<Planned>)

  /** What a check may return: nothing, or a reason not to plan. */
  predicate Reason(r: Option<PlanResult>) {
    r.None? || r.value.Refused? || r.value.Conflict?
  }

  function OrElse(first: Option<PlanResult>, second: Option<PlanResult>): (r: Option<PlanResult>)
    ensures Reason(first) && Reason(second) ==> Reason(r)
  {
    if first.Some? then first else second
  }

  // ---------------------------------------------------------------------
  // The packaged source
  // ---------------------------------------------------------------------

  predicate ValidAsset(asset: Asset) {
    asset.bytes != "" && asset.digest == Sha256(asset.bytes) && ValidMode(asset.mode)
  }

  /** UTF-8, complete lines, and no marker of its own. */
  predicate ValidBlock(bytes: Bytes) {
    match Utf8.Decode(bytes)
    case None => false
    case Some(text) => !Contains(text, CURRENT.prefix) && text != "" && text[|text| - 1] == '\n'
  }

  predicate ValidSource(source: Source) {
    && VersionText(source.version) && RevisionText(source.revision)
    && source.provenance != "" && '\n' !in source.provenance && '\r' !in source.provenance
    && ValidAsset(source.skill) && ValidAsset(source.workflow) && ValidAsset(source.agentBlock)
    && ValidBlock(source.agentBlock.bytes) && Utf8.Valid(source.skill.bytes)
  }

  function SourceProblem(source: Source): (r: Option<PlanResult>)
    ensures Reason(r)
  {
    if ValidSource(source) then None else Some(Refused(SnapshotInvalid, None))
  }

  // ---------------------------------------------------------------------
  // The observed surface
  // ---------------------------------------------------------------------

  /** What was observed of a path, once the surface is known to be covered. */
  function EntryAt(paths: seq<PathObservation>, path: Path): PathObservation {
    match FindPrecondition(paths, path)
    case Some(entry) => entry
    case None => Plain(path, Missing)
  }

  predicate Covered(paths: seq<PathObservation>) {
    && Unique(ObservedPaths(paths)) && |paths| == |SCOPE|
    && forall path <- SCOPE :: path in ObservedPaths(paths)
  }

  function SurfaceProblem(paths: seq<PathObservation>): (r: Option<PlanResult>)
    ensures Reason(r)
  {
    if Covered(paths) then None else Some(Refused(SurfaceInvalid, None))
  }

  predicate NameBefore(a: string, b: string) {
    if b == "" then false
    else if a == "" then true
    else a[0] < b[0] || (a[0] == b[0] && NameBefore(a[1..], b[1..]))
  }

  predicate ValidName(name: string) {
    && name != "" && name != "." && name != ".."
    && forall c <- name :: c != '/' && c != '\\' && !(c as int <= 31 || 127 <= c as int <= 159)
  }

  predicate ValidMembers(members: seq<string>) {
    && (forall name <- members :: ValidName(name))
    && forall i :: 0 < i < |members| ==> NameBefore(members[i - 1], members[i])
  }

  function NamesText(members: seq<string>): Bytes {
    if members == [] then ""
    else if |members| == 1 then members[0]
    else members[0] + "\n" + NamesText(members[1..])
  }

  function MembersDigest(members: seq<string>): Digest {
    Sha256(NamesText(members) + "\n")
  }

  function DirectoryProblemAt(path: Path, entry: PathObservation): Option<Problem> {
    if entry.kind != Missing &&
       (entry.kind != Directory || entry.readable != Some(true) || entry.searchable != Some(true) || entry.identity.None?)
    then Some(UnsafeManagedDirectory)
    else if entry.kind == Directory && (path == SKILL_DIRECTORY || path == LEGACY_DIRECTORY) then
      if entry.members.None? || !ValidMembers(entry.members.value) ||
         entry.digest != Some(MembersDigest(entry.members.value))
      then Some(DirectoryObservationInvalid) else None
    else if entry.members.Some? || entry.digest.Some? then Some(DirectoryObservationInvalid)
    else None
  }

  function DirectoriesProblem(paths: seq<PathObservation>, directories: seq<Path>): (r: Option<PlanResult>)
    ensures Reason(r)
    ensures r.None? <==> forall path <- directories :: DirectoryProblemAt(path, EntryAt(paths, path)).None?
  {
    if directories == [] then None
    else
      match DirectoryProblemAt(directories[0], EntryAt(paths, directories[0]))
      case Some(problem) => Some(Refused(problem, Some(directories[0])))
      case None => DirectoriesProblem(paths, directories[1..])
  }

  predicate SafeFile(entry: PathObservation) {
    && entry.kind == File && entry.readable == Some(true) && entry.text.Some?
    && entry.digest == Some(Sha256(entry.text.value)) && entry.identity.Some?
    && entry.mode.Some? && ValidMode(entry.mode.value)
  }

  predicate NonEmptyFile(entry: PathObservation) {
    SafeFile(entry) && entry.text.value != ""
  }

  function AdoptedProblem(paths: seq<PathObservation>): (r: Option<PlanResult>)
    ensures Reason(r)
  {
    if EntryAt(paths, "specs").kind != Directory then Some(Conflict("specs"))
    else if EntryAt(paths, "specs/stories").kind != Directory then Some(Conflict("specs/stories"))
    else if NonEmptyFile(EntryAt(paths, AGENTS)) then None
    else if EntryAt(paths, AGENTS).kind == Missing then Some(Conflict(AGENTS))
    else Some(Refused(UnsafeManagedPath, Some(AGENTS)))
  }

  // ---------------------------------------------------------------------
  // The adoption marker
  // ---------------------------------------------------------------------

  /** The values of the lines that start with `version=`. */
  function VersionLines(lines: Lines): seq<Bytes> {
    match lines
    case End => []
    case Line(raw, rest) =>
      match WithoutPrefix(WithoutLast(raw, '\n'), "version=")
      case None => VersionLines(rest)
      case Some(value) => [value] + VersionLines(rest)
  }

  function ParseAdoption(bytes: Bytes): Option<string> {
    match Utf8.Decode(bytes)
    case None => None
    case Some(text) =>
      var values := VersionLines(LinesOf(text));
      if |values| == 1 && VersionText(WithoutLast(values[0], '\r')) then Some(WithoutLast(values[0], '\r')) else None
  }

  function AdoptionOf(paths: seq<PathObservation>): Option<string> {
    var entry := EntryAt(paths, ADOPTION);
    if entry.kind == File && entry.text.Some? then ParseAdoption(entry.text.value) else Some("unknown")
  }

  function AdoptionProblem(paths: seq<PathObservation>): (r: Option<PlanResult>)
    ensures Reason(r)
  {
    var entry := EntryAt(paths, ADOPTION);
    if entry.kind != Missing && !SafeFile(entry) then Some(Refused(UnsafeManagedPath, Some(ADOPTION)))
    else if AdoptionOf(paths).None? then Some(Conflict(ADOPTION))
    else None
  }

  // ---------------------------------------------------------------------
  // Who owns what is installed
  // ---------------------------------------------------------------------

  const MEMBERS: seq<string> := [".praxisbound-snapshot", "SKILL.md", "story-development.md"]
  const LEGACY_MEMBERS: seq<string> := [".forgeflow-snapshot", "SKILL.md", "story-development.md"]

  predicate Installed(paths: seq<PathObservation>) {
    EntryAt(paths, SKILL_DIRECTORY).kind == Directory
  }

  predicate LegacyInstalled(paths: seq<PathObservation>) {
    EntryAt(paths, LEGACY_DIRECTORY).kind == Directory
  }

  function UnsafeFile(paths: seq<PathObservation>, files: seq<Path>): (r: Option<PlanResult>)
    ensures Reason(r)
    ensures r.None? <==> forall path <- files :: EntryAt(paths, path).kind == Missing || SafeFile(EntryAt(paths, path))
  {
    if files == [] then None
    else if EntryAt(paths, files[0]).kind != Missing && !SafeFile(EntryAt(paths, files[0])) then
      Some(Refused(UnsafeManagedPath, Some(files[0])))
    else UnsafeFile(paths, files[1..])
  }

  /** All there and not empty when the directory is, and otherwise none there. */
  predicate Complete(paths: seq<PathObservation>, there: bool, files: seq<Path>) {
    forall path <- files ::
      if there then NonEmptyFile(EntryAt(paths, path)) else EntryAt(paths, path).kind == Missing
  }

  predicate HasMembers(paths: seq<PathObservation>, directory: Path, members: seq<string>) {
    EntryAt(paths, directory).members == Some(members)
  }

  function OwnershipProblem(paths: seq<PathObservation>): (r: Option<PlanResult>)
    ensures Reason(r)
  {
    if Installed(paths) && LegacyInstalled(paths) then Some(Conflict(LEGACY_DIRECTORY))
    else if Installed(paths) && !HasMembers(paths, SKILL_DIRECTORY, MEMBERS) then Some(Conflict(SKILL_DIRECTORY))
    else if !Installed(paths) && EntryAt(paths, SKILL_DIRECTORY).members.Some? &&
            EntryAt(paths, SKILL_DIRECTORY).members.value != [] then Some(Conflict(SKILL_DIRECTORY))
    else if LegacyInstalled(paths) && !HasMembers(paths, LEGACY_DIRECTORY, LEGACY_MEMBERS) then
      Some(Conflict(LEGACY_DIRECTORY))
    else if UnsafeFile(paths, DESTINATIONS[1..]).Some? then UnsafeFile(paths, DESTINATIONS[1..])
    else if !Complete(paths, Installed(paths), DESTINATIONS[1..]) then Some(Conflict(SKILL_DIRECTORY))
    else if !Complete(paths, LegacyInstalled(paths), LEGACY_DESTINATIONS) then Some(Conflict(LEGACY_DIRECTORY))
    else None
  }

  // ---------------------------------------------------------------------
  // The sections of AGENTS.md
  // ---------------------------------------------------------------------

  function TextOf(paths: seq<PathObservation>, path: Path): Bytes {
    if EntryAt(paths, path).text.Some? then EntryAt(paths, path).text.value else ""
  }

  function AgentsOf(paths: seq<PathObservation>): Bytes {
    TextOf(paths, AGENTS)
  }

  /** A section exactly when the integration is installed. */
  predicate SectionAgrees(markers: Markers, agents: Bytes, there: bool) {
    match SpanOf(markers, agents)
    case None => false
    case Some(span) => span.Section? == there
  }

  function SectionsProblem(paths: seq<PathObservation>): (r: Option<PlanResult>)
    ensures Reason(r)
  {
    if SectionAgrees(CURRENT, AgentsOf(paths), Installed(paths)) &&
       SectionAgrees(LEGACY, AgentsOf(paths), LegacyInstalled(paths))
    then None else Some(Conflict(AGENTS))
  }

  function FoundSection(markers: Markers, agents: Bytes): Bytes {
    match SpanOf(markers, agents)
    case Some(span) => if Within(span, agents) then SectionBytes(agents, span) else ""
    case None => ""
  }

  /** One of the lines of the section is the identity comment. */
  predicate NamesIdentity(section: Bytes, fields: Fields) {
    match Utf8.Decode(section)
    case None => false
    case Some(text) => HasLine(LinesOf(text), IdentityLine(fields))
  }

  function InstalledProblem(paths: seq<PathObservation>): (r: Option<PlanResult>)
    ensures Reason(r)
  {
    if !Installed(paths) then None
    else
      var section := FoundSection(CURRENT, AgentsOf(paths));
      match InstalledFields(TextOf(paths, SNAPSHOT), TextOf(paths, SKILL), TextOf(paths, WORKFLOW), section)
      case None => Some(Conflict(SNAPSHOT))
      case Some(fields) => if NamesIdentity(section, fields) then None else Some(Conflict(AGENTS))
  }

  function LegacyProblem(paths: seq<PathObservation>): (r: Option<PlanResult>)
    ensures Reason(r)
  {
    if !LegacyInstalled(paths) then None
    else
      var section := FoundSection(LEGACY, AgentsOf(paths));
      match InstalledFields(TextOf(paths, LEGACY_SNAPSHOT), TextOf(paths, LEGACY_SKILL), TextOf(paths, LEGACY_WORKFLOW), section)
      case None => Some(Conflict(LEGACY_SNAPSHOT))
      case Some(fields) =>
        if fields.version != "0.9.0" then Some(Conflict(LEGACY_SNAPSHOT))
        else if NamesIdentity(section, fields) then None
        else Some(Conflict(AGENTS))
  }

  /** The first reason not to plan, in the order the checks are made. */
  function FirstProblem(source: Source, paths: seq<PathObservation>): (r: Option<PlanResult>)
    ensures Reason(r)
  {
    OrElse(SourceProblem(source), OrElse(SurfaceProblem(paths), OrElse(DirectoriesProblem(paths, DIRECTORIES),
    OrElse(AdoptedProblem(paths), OrElse(AdoptionProblem(paths), OrElse(OwnershipProblem(paths),
    OrElse(SectionsProblem(paths), OrElse(InstalledProblem(paths), LegacyProblem(paths)))))))))
  }

  // ---------------------------------------------------------------------
  // What is to be installed
  // ---------------------------------------------------------------------

  const SKILL_LINK := "../story-development/SKILL.md"
  const INSTALLED_LINK := "story-development.md"

  /** The text from a position on, with every skill link turned into the installed one. */
  function Relinked(text: Bytes, from: nat): Bytes
    requires from <= |text|
    decreases |text| - from
  {
    if from == |text| then ""
    else if OccursAt(text, SKILL_LINK, from) && |SKILL_LINK| > 0 then INSTALLED_LINK + Relinked(text, from + |SKILL_LINK|)
    else [text[from]] + Relinked(text, from + 1)
  }

  function DesiredSkill(source: Source): Bytes {
    match Utf8.Decode(source.skill.bytes)
    case None => ""
    case Some(text) => Relinked(text, 0)
  }

  function DesiredFields(source: Source, paths: seq<PathObservation>): Fields {
    Fields(source.version, source.revision, if AdoptionOf(paths).Some? then AdoptionOf(paths).value else "")
  }

  function DesiredBlock(source: Source, paths: seq<PathObservation>): Bytes {
    BlockBytes(DesiredFields(source, paths), source.agentBlock.bytes)
  }

  function ReplacedMarkers(paths: seq<PathObservation>): Markers {
    if LegacyInstalled(paths) then LEGACY else CURRENT
  }

  function DesiredAgents(source: Source, paths: seq<PathObservation>): Bytes {
    match SpanOf(ReplacedMarkers(paths), AgentsOf(paths))
    case None => AgentsOf(paths)
    case Some(span) =>
      if Within(span, AgentsOf(paths)) then PlaceBlock(AgentsOf(paths), span, DesiredBlock(source, paths))
      else AgentsOf(paths)
  }

  function DesiredSnapshot(source: Source, paths: seq<PathObservation>): Bytes {
    SnapshotBytes(DesiredFields(source, paths), DesiredSkill(source), source.workflow.bytes, DesiredBlock(source, paths))
  }

  /** 0o644 */
  const SNAPSHOT_MODE: Mode := {2, 5, 7, 8}

  /** A file that is there keeps its mode. */
  function PlannedMode(paths: seq<PathObservation>, path: Path, mode: Mode): Mode {
    var entry := EntryAt(paths, path);
    if entry.kind == File && entry.mode.Some? && ValidMode(entry.mode.value) then entry.mode.value else mode
  }

  function PlannedAt(paths: seq<PathObservation>, path: Path, bytes: Bytes, mode: Mode): (payload: Planned)
    ensures payload.path == path && payload.bytes == bytes && payload.digest == Sha256(bytes)
  {
    Planned(path, Sha256(bytes), bytes, PlannedMode(paths, path, mode))
  }

  /** AGENTS.md is there, so its own mode is always the planned one. */
  function PayloadsFrom(paths: seq<PathObservation>, agents: Bytes, skill: Bytes, workflow: Bytes, snapshot: Bytes,
                        skillMode: Mode, workflowMode: Mode): seq<Planned>
  {
    [PlannedAt(paths, AGENTS, agents, {}), PlannedAt(paths, SKILL, skill, skillMode),
     PlannedAt(paths, WORKFLOW, workflow, workflowMode), PlannedAt(paths, SNAPSHOT, snapshot, SNAPSHOT_MODE)]
  }

  function Payloads(source: Source, paths: seq<PathObservation>): seq<Planned> {
    PayloadsFrom(paths, DesiredAgents(source, paths), DesiredSkill(source), source.workflow.bytes,
                 DesiredSnapshot(source, paths), source.skill.mode, source.workflow.mode)
  }

  predicate AllInPlace(paths: seq<PathObservation>, payloads: seq<Planned>) {
    forall payload <- payloads :: EntryAt(paths, payload.path).text == Some(payload.bytes)
  }

  // ---------------------------------------------------------------------
  // The plan
  // ---------------------------------------------------------------------

  const STAGE_TAG := ".praxisbound-activate."

  /** Stages of legacy files lie beside the legacy directory, which is removed before they are. */
  function StageFor(path: Path, seed: string): Path
    requires ValidSeed(seed)
  {
    if LEGACY_DIRECTORY + "/" <= path then
      ".agents/skills/" + STAGE_TAG + seed[..16] + "-forgeflow-" + path[|LEGACY_DIRECTORY| + 1..]
    else StagePath(STAGE_TAG, path, seed)
  }

  function StagesFor(paths: seq<Path>, seed: string): (stages: seq<Path>)
    requires ValidSeed(seed)
    ensures |stages| == |paths|
    ensures forall i :: 0 <= i < |paths| ==> stages[i] == StageFor(paths[i], seed)
  {
    seq(|paths|, i requires 0 <= i < |paths| => StageFor(paths[i], seed))
  }

  function Removal(entry: PathObservation): Effect {
    Effect(Remove, entry.path, if entry.digest.Some? then entry.digest.value else Malformed("undefined"), entry.mode)
  }

  function Removals(paths: seq<PathObservation>): seq<Effect> {
    if LegacyInstalled(paths) then
      [Removal(EntryAt(paths, LEGACY_SKILL)), Removal(EntryAt(paths, LEGACY_WORKFLOW)), Removal(EntryAt(paths, LEGACY_SNAPSHOT))]
    else []
  }

  function Placement(paths: seq<PathObservation>, payload: Planned): Effect {
    Effect(if EntryAt(paths, payload.path).kind == File then Replace else Install, payload.path, payload.digest,
           Some(payload.mode))
  }

  function Placements(paths: seq<PathObservation>, payloads: seq<Planned>): (effects: seq<Effect>)
    ensures |effects| == |payloads|
    ensures forall i :: 0 <= i < |payloads| ==> effects[i] == Placement(paths, payloads[i])
  {
    seq(|payloads|, i requires 0 <= i < |payloads| => Placement(paths, payloads[i]))
  }

  function EffectsFor(paths: seq<PathObservation>, payloads: seq<Planned>): seq<Effect> {
    Removals(paths) + Placements(paths, payloads)
  }

  function PathsOf(effects: seq<Effect>): (paths: seq<Path>)
    ensures |paths| == |effects|
    ensures forall i :: 0 <= i < |effects| ==> paths[i] == effects[i].path
  {
    seq(|effects|, i requires 0 <= i < |effects| => effects[i].path)
  }

  function BuildPlan(rootIdentity: Identity, source: Source, paths: seq<PathObservation>, effects: seq<Effect>, seed: string): Plan
    requires ValidSeed(seed)
  {
    var body := PlanBody(
      Activation(DesiredFields(source, paths).adoption), rootIdentity, source.version, source.provenance, source.revision,
      None, Recorded(paths, true), StagesFor(PathsOf(effects), seed), effects, SNAPSHOT);
    Plan(body, PlanHash(body))
  }

  /** `seed` is the hexadecimal hash of the plan's inputs. */
  function PlanActivation(rootIdentity: Identity, source: Source, paths: seq<PathObservation>, seed: string): PlanResult
    requires ValidSeed(seed)
  {
    match FirstProblem(source, paths)
    case Some(problem) => problem
    case None =>
      var payloads := Payloads(source, paths);
      if !LegacyInstalled(paths) && AllInPlace(paths, payloads) then Unchanged(payloads)
      else Previewed(BuildPlan(rootIdentity, source, paths, EffectsFor(paths, payloads), seed), payloads)
  }
}
