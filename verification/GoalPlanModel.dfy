/**
 Goal plan artifacts and how they are read from parsed JSON
 (packages/core/src/goal-plan-artifacts.ts:26-205, 527-887, 941-1305, 1376-1550, 1552-1839).
 */
module GoalPlanModel {
  import opened Foundations
  import opened TextOrder
  import opened Topology
  import JsonScan

  type Bytes = seq<nat>

  // ---------------------------------------------------------------------
  // Parsed JSON
  // ---------------------------------------------------------------------

  /** The member names the code looks for, and every other one. */
  datatype Field =
    | SchemaVersionField | PlanField | NodesField | IdField | RevisionField | PathField | Sha256Field
    | BatchIdField | FingerprintField | NodeRefField | StoryRefField | ReadinessField | DependsOnField
    | DeclarationField | ReviewedSourcesField | CoverageIndexField | ReviewIdField | ManifestSha256Field
    | ConclusionField | ReviewerField | ReviewedAtField | NameField | AssuranceField
    | OtherField(name: Text)

  /** A number is an integer or, with `None`, another number. */
  datatype Json =
    | JsonNull
    | JsonFlag(flag: bool)
    | JsonNumber(integer: Option<int>)
    | JsonText(text: Text)
    | JsonArray(items: seq<Json>)
    | JsonObject(fields: map<Field, Json>)

  function Get(json: Json, field: Field): Option<Json> {
    if json.JsonObject? && field in json.fields then Some(json.fields[field]) else None
  }

  function TextOf(json: Option<Json>): Option<Text> {
    if json.Some? && json.value.JsonText? then Some(json.value.text) else None
  }

  /** An object without unknown members. */
  predicate OnlyFields(json: Option<Json>, allowed: set<Field>) {
    json.Some? && json.value.JsonObject? && json.value.fields.Keys <= allowed
  }

  /**
   What the code gets from its surroundings: SHA-256 as text, decoding UTF-8, parsing and writing
   JSON, and the regular expressions.
   */
  datatype World = World(
    hash: Bytes -> Text,
    decode: Bytes -> Option<Text>,
    parse: Text -> Json,
    write: Json -> Bytes,
    repoPathPattern: Text -> bool,
    batchIdPattern: Text -> bool,
    reviewIdPattern: Text -> bool,
    reviewerName: Text -> bool,
    realDateTime: Text -> bool)

  // ---------------------------------------------------------------------
  // Artifacts
  // ---------------------------------------------------------------------

  datatype Category = UnsupportedSchema | MalformedArtifact | InvalidTopology | DigestMismatch | ApprovalBindingMismatch

  datatype Outcome<+T> = Accepted(value: T) | Rejected(category: Category, cause: Option<Category>)

  datatype PlanIdentity = PlanIdentity(id: Text, revision: int)

  datatype CoverageIndex = CoverageIndex(batchId: Text, fingerprint: Text)

  datatype Binding = Binding(path: Text, sha256: Text)

  /** A node of a Declaration, or of a Manifest when it has a readiness contract. */
  datatype GoalNode = GoalNode(nodeRef: Text, storyRef: Text, readiness: Option<Binding>, dependsOn: seq<Text>)

  datatype Declaration = Declaration(plan: PlanIdentity, nodes: seq<GoalNode>)

  datatype Manifest = Manifest(plan: PlanIdentity, declaration: Binding, nodes: seq<GoalNode>,
                               reviewedSources: seq<Binding>, coverageIndex: CoverageIndex)

  datatype Review = Review(reviewId: Text, manifestSha256: Text, reviewedSources: seq<Binding>,
                           coverageIndex: CoverageIndex, reviewer: Text, reviewedAt: Text)

  const MAX_NODES := 1000
  const MAX_DEPENDS_ON := 1000
  const MAX_TOTAL_DEPENDS_ON_EDGES := 10000
  const MAX_REVIEWED_SOURCES := 4000
  const MAX_REPO_PATH_BYTES := 1024
  const MAX_BATCH_ID_LENGTH := 128
  const MAX_ARTIFACT_BYTES := 8388608
  const MAX_JSON_DEPTH := 128
  const MAX_DECLARATION_BYTES := 1048576
  const MAX_DECLARATION_JSON_DEPTH := 32
  const MAX_SAFE_INTEGER := 9007199254740991

  /** `1.0.0` */
  const SCHEMA_VERSION: Text := [49, 46, 48, 46, 48]
  /** `approved` */
  const APPROVED: Text := [97, 112, 112, 114, 111, 118, 101, 100]
  /** `self-asserted` */
  const SELF_ASSERTED: Text := [115, 101, 108, 102, 45, 97, 115, 115, 101, 114, 116, 101, 100]
  /** `/readiness.json` */
  const READINESS_FILE: Text := [47, 114, 101, 97, 100, 105, 110, 101, 115, 115, 46, 106, 115, 111, 110]

  function PathKey(binding: Binding): seq<nat> {
    Encode(binding.path)
  }

  function UnitKey(text: Text): seq<nat> {
    text
  }

  function RefKey(node: GoalNode): seq<nat> {
    node.nodeRef
  }

  // ---------------------------------------------------------------------
  // Single values
  // ---------------------------------------------------------------------

  predicate Alphanumeric(u: nat) {
    48 <= u <= 57 || 65 <= u <= 90 || 97 <= u <= 122
  }

  /** PLAN_OR_NODE_ID_PATTERN */
  predicate IsNodeId(text: Text) {
    && 1 <= |text| <= 128 && Alphanumeric(text[0])
    && forall i :: 0 <= i < |text| ==> Alphanumeric(text[i]) || text[i] == 46 || text[i] == 95 || text[i] == 58 || text[i] == 45
  }

  /** SHA256_PATTERN */
  predicate IsSha256(text: Text) {
    |text| == 64 && forall i :: 0 <= i < |text| ==> 48 <= text[i] <= 57 || 97 <= text[i] <= 102
  }

  predicate IsRepoPath(w: World, text: Text) {
    text != [] && |Encode(text)| <= MAX_REPO_PATH_BYTES && w.repoPathPattern(text)
  }

  predicate ProperPlan(plan: PlanIdentity) {
    IsNodeId(plan.id) && 1 <= plan.revision <= MAX_SAFE_INTEGER
  }

  predicate ProperBinding(w: World, binding: Binding) {
    IsRepoPath(w, binding.path) && IsSha256(binding.sha256)
  }

  predicate ProperCoverage(w: World, index: CoverageIndex) {
    |index.batchId| <= MAX_BATCH_ID_LENGTH && w.batchIdPattern(index.batchId) && IsSha256(index.fingerprint)
  }

  function ReadPlanIdentity(json: Option<Json>): (plan: Option<PlanIdentity>)
    ensures plan.Some? ==> ProperPlan(plan.value)
  {
    if !OnlyFields(json, {IdField, RevisionField}) then None
    else
      var id, revision := TextOf(Get(json.value, IdField)), Get(json.value, RevisionField);
      if id.None? || !IsNodeId(id.value) then None
      else if !(revision.Some? && revision.value.JsonNumber?) then None
      else
        var number := revision.value.integer;
        if number.None? || number.value < 1 || number.value > MAX_SAFE_INTEGER then None
        else Some(PlanIdentity(id.value, number.value))
  }

  function ReadBinding(w: World, json: Option<Json>): (binding: Option<Binding>)
    ensures binding.Some? ==> ProperBinding(w, binding.value)
  {
    if !OnlyFields(json, {PathField, Sha256Field}) then None
    else
      var path, sha256 := TextOf(Get(json.value, PathField)), TextOf(Get(json.value, Sha256Field));
      if path.None? || !IsRepoPath(w, path.value) then None
      else if sha256.None? || !IsSha256(sha256.value) then None
      else Some(Binding(path.value, sha256.value))
  }

  function ReadCoverageIndex(w: World, json: Option<Json>): (index: Option<CoverageIndex>)
    ensures index.Some? ==> ProperCoverage(w, index.value)
  {
    if !OnlyFields(json, {BatchIdField, FingerprintField}) then None
    else
      var batchId, fingerprint := TextOf(Get(json.value, BatchIdField)), TextOf(Get(json.value, FingerprintField));
      if batchId.None? || |batchId.value| > MAX_BATCH_ID_LENGTH || !w.batchIdPattern(batchId.value) then None
      else if fingerprint.None? || !IsSha256(fingerprint.value) then None
      else Some(CoverageIndex(batchId.value, fingerprint.value))
  }

  function ReadReviewer(w: World, json: Option<Json>): (name: Option<Text>)
    ensures name.Some? ==> w.reviewerName(name.value)
  {
    if !OnlyFields(json, {NameField, AssuranceField}) then None
    else
      var name := TextOf(Get(json.value, NameField));
      if name.None? || !w.reviewerName(name.value) then None
      else if TextOf(Get(json.value, AssuranceField)) != Some(SELF_ASSERTED) then None
      else name
  }

  // ---------------------------------------------------------------------
  // Lists
  // ---------------------------------------------------------------------

  /** The bindings of all entries, if each is one. */
  function EachBinding(w: World, items: seq<Json>): (bindings: Option<seq<Binding>>)
    ensures bindings.Some? ==> |bindings.value| == |items|
    ensures bindings.Some? ==> forall i :: 0 <= i < |items| ==> ReadBinding(w, Some(items[i])) == Some(bindings.value[i])
    ensures bindings.None? ==> exists i :: 0 <= i < |items| && ReadBinding(w, Some(items[i])).None?
  {
    if items == [] then Some([])
    else
      var front, last := EachBinding(w, items[..|items| - 1]), ReadBinding(w, Some(items[|items| - 1]));
      if front.None? || last.None? then None else Some(front.value + [last.value])
  }

  /** Paths strictly increasing by their UTF-8 octets. */
  function ReviewedSourcesOf(w: World, json: Option<Json>): Option<seq<Binding>> {
    if !(json.Some? && json.value.JsonArray?) || |json.value.items| > MAX_REVIEWED_SOURCES then None
    else
      var bindings := EachBinding(w, json.value.items);
      if bindings.Some? && StepwiseSorted(bindings.value, PathKey) then bindings else None
  }

  function EachNodeId(items: seq<Json>): (ids: Option<seq<Text>>)
    ensures ids.Some? ==> |ids.value| == |items|
    ensures ids.Some? ==> forall i :: 0 <= i < |items| ==> items[i] == JsonText(ids.value[i]) && IsNodeId(ids.value[i])
    ensures ids.None? ==> exists i :: 0 <= i < |items| && !(items[i].JsonText? && IsNodeId(items[i].text))
  {
    if items == [] then Some([])
    else
      var front, last := EachNodeId(items[..|items| - 1]), items[|items| - 1];
      if front.None? || !last.JsonText? || !IsNodeId(last.text) then None else Some(front.value + [last.text])
  }

  /** Dependencies differ; in a Manifest they are strictly increasing by code units. */
  ghost function DependsOnOf(json: Option<Json>, sorted: bool): Option<seq<Text>> {
    if !(json.Some? && json.value.JsonArray?) || |json.value.items| > MAX_DEPENDS_ON then None
    else
      var ids := EachNodeId(json.value.items);
      if ids.Some? && Distinct(ids.value) && (sorted ==> StepwiseSorted(ids.value, UnitKey)) then ids else None
  }

  // ---------------------------------------------------------------------
  // Nodes
  // ---------------------------------------------------------------------

  function EdgeCount(nodes: seq<GoalNode>): nat {
    if nodes == [] then 0 else EdgeCount(nodes[..|nodes| - 1]) + |nodes[|nodes| - 1].dependsOn|
  }

  predicate HasRef(nodes: seq<GoalNode>, ref: Text) {
    exists i :: 0 <= i < |nodes| && nodes[i].nodeRef == ref
  }

  function NodeFields(manifest: bool): set<Field> {
    if manifest then {NodeRefField, StoryRefField, ReadinessField, DependsOnField}
    else {NodeRefField, StoryRefField, DependsOnField}
  }

  /** The contract a Manifest node must have: the sidecar of its own story. */
  function ReadReadiness(w: World, json: Option<Json>, storyRef: Text): Option<Binding> {
    var binding := ReadBinding(w, json);
    if binding.Some? && binding.value.path == storyRef + READINESS_FILE then binding else None
  }

  /** What follows the reference of a node, in the light of the nodes before it. */
  ghost function NodeRest(w: World, item: Json, manifest: bool, before: seq<GoalNode>, ref: Text): Option<GoalNode> {
    var storyRef := TextOf(Get(item, StoryRefField));
    if manifest && before != [] && !Before(before[|before| - 1].nodeRef, ref) then None
    else if storyRef.None? || !IsRepoPath(w, storyRef.value) then None
    else
      var readiness := if manifest then ReadReadiness(w, Get(item, ReadinessField), storyRef.value) else None;
      if manifest && readiness.None? then None
      else
        var dependsOn := DependsOnOf(Get(item, DependsOnField), manifest);
        if dependsOn.None? || EdgeCount(before) + |dependsOn.value| > MAX_TOTAL_DEPENDS_ON_EDGES then None
        else Some(GoalNode(ref, storyRef.value, readiness, dependsOn.value))
  }

  ghost function NodeOf(w: World, item: Json, manifest: bool, before: seq<GoalNode>): Outcome<GoalNode> {
    var ref := TextOf(Get(item, NodeRefField));
    if !OnlyFields(Some(item), NodeFields(manifest)) || ref.None? || !IsNodeId(ref.value) then Rejected(MalformedArtifact, None)
    else if HasRef(before, ref.value) then Rejected(InvalidTopology, None)
    else
      match NodeRest(w, item, manifest, before, ref.value)
      case None => Rejected(MalformedArtifact, None)
      case Some(node) => Accepted(node)
  }

  ghost function NodesFrom(w: World, items: seq<Json>, manifest: bool, before: seq<GoalNode>): Outcome<seq<GoalNode>> {
    if items == [] then Accepted(before)
    else
      match NodeOf(w, items[0], manifest, before)
      case Rejected(category, cause) => Rejected(category, cause)
      case Accepted(node) => NodesFrom(w, items[1..], manifest, before + [node])
  }

  function Shape(node: GoalNode): TopologyNode {
    TopologyNode(node.nodeRef, node.dependsOn)
  }

  function Shapes(nodes: seq<GoalNode>): (shapes: seq<TopologyNode>)
    ensures |shapes| == |nodes| && forall i :: 0 <= i < |nodes| ==> shapes[i] == Shape(nodes[i])
  {
    if nodes == [] then [] else Shapes(nodes[..|nodes| - 1]) + [Shape(nodes[|nodes| - 1])]
  }

  ghost function NodesOf(w: World, json: Option<Json>, manifest: bool): Outcome<seq<GoalNode>> {
    if !(json.Some? && json.value.JsonArray?) || !(1 <= |json.value.items| <= MAX_NODES) then Rejected(MalformedArtifact, None)
    else
      match NodesFrom(w, json.value.items, manifest, [])
      case Rejected(category, cause) => Rejected(category, cause)
      case Accepted(nodes) => if Fault(Shapes(nodes)).Some? then Rejected(InvalidTopology, None) else Accepted(nodes)
  }

  // ---------------------------------------------------------------------
  // Artifacts
  // ---------------------------------------------------------------------

  ghost function DeclarationShape(w: World, json: Json): Outcome<Declaration> {
    if !OnlyFields(Some(json), {SchemaVersionField, PlanField, NodesField}) then Rejected(MalformedArtifact, None)
    else
      var plan := ReadPlanIdentity(Get(json, PlanField));
      if plan.None? then Rejected(MalformedArtifact, None)
      else
        match NodesOf(w, Get(json, NodesField), false)
        case Rejected(category, cause) => Rejected(category, cause)
        case Accepted(nodes) => Accepted(Declaration(plan.value, nodes))
  }

  ghost function ManifestShape(w: World, json: Json): Outcome<Manifest> {
    if !OnlyFields(Some(json), {SchemaVersionField, PlanField, DeclarationField, NodesField, ReviewedSourcesField, CoverageIndexField})
    then Rejected(MalformedArtifact, None)
    else
      var plan, declaration := ReadPlanIdentity(Get(json, PlanField)), ReadBinding(w, Get(json, DeclarationField));
      var sources := ReviewedSourcesOf(w, Get(json, ReviewedSourcesField));
      var index := ReadCoverageIndex(w, Get(json, CoverageIndexField));
      if plan.None? || declaration.None? || sources.None? || index.None? then Rejected(MalformedArtifact, None)
      else
        match NodesOf(w, Get(json, NodesField), true)
        case Rejected(category, cause) => Rejected(category, cause)
        case Accepted(nodes) => Accepted(Manifest(plan.value, declaration.value, nodes, sources.value, index.value))
  }

  function ReviewShape(w: World, json: Json): Option<Review> {
    if !OnlyFields(Some(json), {SchemaVersionField, ReviewIdField, ManifestSha256Field, ReviewedSourcesField,
                                CoverageIndexField, ConclusionField, ReviewerField, ReviewedAtField})
    then None
    else
      var reviewId, digest := TextOf(Get(json, ReviewIdField)), TextOf(Get(json, ManifestSha256Field));
      var sources := ReviewedSourcesOf(w, Get(json, ReviewedSourcesField));
      var index := ReadCoverageIndex(w, Get(json, CoverageIndexField));
      var reviewer, at := ReadReviewer(w, Get(json, ReviewerField)), TextOf(Get(json, ReviewedAtField));
      if reviewId.None? || !w.reviewIdPattern(reviewId.value) || digest.None? || !IsSha256(digest.value) then None
      else if sources.None? || index.None? || TextOf(Get(json, ConclusionField)) != Some(APPROVED) then None
      else if reviewer.None? || at.None? || !w.realDateTime(at.value) then None
      else Some(Review(reviewId.value, digest.value, sources.value, index.value, reviewer.value, at.value))
  }

  /** Only a text that the scanner finds no fault in is parsed. */
  function ReadJson(w: World, bytes: Bytes, maxDepth: nat): Option<Json> {
    match w.decode(bytes)
    case None => None
    case Some(text) => if JsonScan.Scan(text, maxDepth).Some? then None else Some(w.parse(text))
  }

  /** parseJson: the size is looked at before anything is read. */
  function ParseJson(w: World, bytes: Bytes, maxBytes: nat, maxDepth: nat): Option<Json> {
    if |bytes| > maxBytes then None else ReadJson(w, bytes, maxDepth)
  }

  predicate SupportedSchema(json: Json) {
    TextOf(Get(json, SchemaVersionField)) == Some(SCHEMA_VERSION)
  }

  /** validateGoalPlanDeclaration */
  ghost function DeclarationOf(w: World, bytes: Bytes): Outcome<Declaration> {
    var json := ParseJson(w, bytes, MAX_DECLARATION_BYTES, MAX_DECLARATION_JSON_DEPTH);
    if json.None? then Rejected(MalformedArtifact, None)
    else if !SupportedSchema(json.value) then Rejected(UnsupportedSchema, None)
    else DeclarationShape(w, json.value)
  }

  /** validateManifestStructure */
  ghost function ManifestStructure(w: World, bytes: Bytes): Outcome<Manifest> {
    var json := ParseJson(w, bytes, MAX_ARTIFACT_BYTES, MAX_JSON_DEPTH);
    if json.None? then Rejected(MalformedArtifact, None)
    else if !SupportedSchema(json.value) then Rejected(UnsupportedSchema, None)
    else ManifestShape(w, json.value)
  }

  /** validateReviewStructure */
  function ReviewStructure(w: World, bytes: Bytes): Outcome<Review> {
    var json := ParseJson(w, bytes, MAX_ARTIFACT_BYTES, MAX_JSON_DEPTH);
    if json.None? then Rejected(MalformedArtifact, None)
    else if !SupportedSchema(json.value) then Rejected(UnsupportedSchema, None)
    else if ReviewShape(w, json.value).None? then Rejected(MalformedArtifact, None)
    else Accepted(ReviewShape(w, json.value).value)
  }

  // ---------------------------------------------------------------------
  // Bindings
  // ---------------------------------------------------------------------

  type Sources = map<Text, Bytes>

  /** verifyBinding */
  predicate Bound(w: World, binding: Binding, sources: Sources) {
    binding.path in sources && w.hash(sources[binding.path]) == binding.sha256
  }

  predicate EachBound(w: World, bindings: seq<Binding>, sources: Sources) {
    forall i :: 0 <= i < |bindings| ==> Bound(w, bindings[i], sources)
  }

  predicate ReadinessBound(w: World, nodes: seq<GoalNode>, sources: Sources) {
    forall i :: 0 <= i < |nodes| && nodes[i].readiness.Some? ==> Bound(w, nodes[i].readiness.value, sources)
  }

  predicate SameStringSet(a: seq<Text>, b: seq<Text>) {
    |a| == |b| && forall i :: 0 <= i < |b| ==> b[i] in a
  }

  /** The last declared node with this reference, as a Map built from the list has it. */
  function Declared(nodes: seq<GoalNode>, ref: Text): Option<GoalNode> {
    if nodes == [] then None
    else if nodes[|nodes| - 1].nodeRef == ref then Some(nodes[|nodes| - 1])
    else Declared(nodes[..|nodes| - 1], ref)
  }

  predicate NodeMatches(declared: seq<GoalNode>, node: GoalNode) {
    var other := Declared(declared, node.nodeRef);
    other.Some? && other.value.storyRef == node.storyRef && SameStringSet(other.value.dependsOn, node.dependsOn)
  }

  /** matchDeclarationToManifest */
  predicate Matches(declaration: Declaration, manifest: Manifest) {
    && declaration.plan == manifest.plan && |declaration.nodes| == |manifest.nodes|
    && forall i :: 0 <= i < |manifest.nodes| ==> NodeMatches(declaration.nodes, manifest.nodes[i])
  }

  function Reject<T>(category: Category): Outcome<T> {
    Rejected(category, None)
  }

  /** validateGoalPlanManifestInput behind the structure of the Manifest. */
  ghost function BoundManifest(w: World, manifest: Manifest, sources: Sources): Outcome<Manifest> {
    if !Bound(w, manifest.declaration, sources) then Reject(DigestMismatch)
    else
      match DeclarationOf(w, sources[manifest.declaration.path])
      case Rejected(category, _) => Rejected(category, Some(category))
      case Accepted(declaration) =>
        if !Matches(declaration, manifest) then Reject(InvalidTopology)
        else if !EachBound(w, manifest.reviewedSources, sources) || !ReadinessBound(w, manifest.nodes, sources) then Reject(DigestMismatch)
        else Accepted(manifest)
  }

  /** validateGoalPlanManifest */
  ghost function ManifestOf(w: World, bytes: Bytes, sources: Option<Sources>): Outcome<Manifest> {
    match ManifestStructure(w, bytes)
    case Rejected(category, cause) => Rejected(category, cause)
    case Accepted(manifest) => if sources.None? then Reject(DigestMismatch) else BoundManifest(w, manifest, sources.value)
  }

  /** The entry for this path is the last one, as in a Map built from the list. */
  function PathDigest(bindings: seq<Binding>, path: Text): Option<Text> {
    if bindings == [] then None
    else if bindings[|bindings| - 1].path == path then Some(bindings[|bindings| - 1].sha256)
    else PathDigest(bindings[..|bindings| - 1], path)
  }

  predicate SameBindings(left: seq<Binding>, right: seq<Binding>) {
    |left| == |right| && forall i :: 0 <= i < |left| ==> PathDigest(right, left[i].path) == Some(left[i].sha256)
  }

  /** validatePlanCoverageReview */
  ghost function ReviewOf(w: World, reviewBytes: Bytes, manifestBytes: Bytes, sources: Option<Sources>): Outcome<Review> {
    match ReviewStructure(w, reviewBytes)
    case Rejected(category, cause) => Rejected(category, cause)
    case Accepted(review) =>
      if |manifestBytes| > MAX_ARTIFACT_BYTES then Reject(MalformedArtifact)
      else if review.manifestSha256 != w.hash(manifestBytes) then Reject(ApprovalBindingMismatch)
      else
        match ManifestOf(w, manifestBytes, sources)
        case Rejected(category, _) =>
          Rejected(if category == DigestMismatch then DigestMismatch else ApprovalBindingMismatch, Some(category))
        case Accepted(manifest) =>
          if !SameBindings(review.reviewedSources, manifest.reviewedSources) || review.coverageIndex != manifest.coverageIndex
          then Reject(ApprovalBindingMismatch)
          else Accepted(review)
  }
}
