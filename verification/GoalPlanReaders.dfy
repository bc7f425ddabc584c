/**
 The loops that read, check and compare goal plan artifacts
 (packages/core/src/goal-plan-artifacts.ts:783-887, 941-1305, 1376-1550, 1598-1839).
 */
module GoalPlanReaders {
  import opened Foundations
  import opened TextOrder
  import opened Topology
  import opened GoalPlanModel

  // ---------------------------------------------------------------------
  // Reviewed sources
  // ---------------------------------------------------------------------

  lemma BadSource(w: World, items: seq<Json>, i: nat)
    requires i < |items| && ReadBinding(w, Some(items[i])).None?
    ensures EachBinding(w, items).None?
  {
  }

  lemma {:induction false} BindingsPrefix(w: World, items: seq<Json>, i: nat)
    requires i <= |items| && EachBinding(w, items).Some?
    ensures EachBinding(w, items[..i]).Some? && EachBinding(w, items[..i]).value == EachBinding(w, items).value[..i]
  {
    if i < |items| {
      assert items[..|items| - 1][..i] == items[..i];
      BindingsPrefix(w, items[..|items| - 1], i);
    } else {
      assert items[..i] == items;
    }
  }

  /** A path seen before, or out of order, spoils the whole list. */
  lemma UnsortedSource(w: World, items: seq<Json>, bindings: seq<Binding>, next: Binding)
    requires |bindings| < |items| && EachBinding(w, items[..|bindings| + 1]) == Some(bindings + [next])
    requires !StepwiseSorted(bindings + [next], PathKey)
    ensures EachBinding(w, items).Some? ==> !StepwiseSorted(EachBinding(w, items).value, PathKey)
  {
    hide EachBinding, StepwiseSorted, ReadBinding;
    if EachBinding(w, items).Some? {
      BindingsPrefix(w, items, |bindings| + 1);
      if StepwiseSorted(EachBinding(w, items).value, PathKey) {
        SortedPrefix(EachBinding(w, items).value, PathKey, |bindings| + 1);
      }
    }
  }

  lemma RepeatedPath(bindings: seq<Binding>, next: Binding, j: nat)
    requires j < |bindings| && bindings[j].path == next.path
    ensures !StepwiseSorted(bindings + [next], PathKey)
  {
    var all := bindings + [next];
    Stepwise(all, PathKey);
    NotBeforeItself(PathKey(next));
    assert all[j] == bindings[j] && PathKey(all[j]) == PathKey(all[|bindings|]);
  }

  lemma NoBindings(w: World, items: seq<Json>)
    ensures EachBinding(w, items[..0]) == Some([]) && StepwiseSorted<Binding>([], PathKey)
  {
  }

  lemma SortedStep<T>(s: seq<T>, next: T, key: T -> seq<nat>)
    requires StepwiseSorted(s, key)
    ensures StepwiseSorted(s + [next], key) <==> s == [] || Before(key(s[|s| - 1]), key(next))
  {
    var all := s + [next];
    if s != [] {
      assert all[|s| - 1] == s[|s| - 1] && all[|s|] == next;
    }
    assert forall i :: 0 <= i < |s| ==> all[i] == s[i];
  }

  lemma BindingAppend(w: World, items: seq<Json>, i: nat, bindings: seq<Binding>, next: Binding)
    requires i < |items| && EachBinding(w, items[..i]) == Some(bindings) && ReadBinding(w, Some(items[i])) == Some(next)
    ensures EachBinding(w, items[..i + 1]) == Some(bindings + [next])
  {
    assert items[..i + 1][..i] == items[..i];
  }

  method ReadReviewedSources(w: World, json: Option<Json>) returns (bindings: Option<seq<Binding>>)
    ensures bindings == ReviewedSourcesOf(w, json)
  {
    hide ReadBinding, Encode, Before, EachBinding, StepwiseSorted;
    if !(json.Some? && json.value.JsonArray?) || |json.value.items| > MAX_REVIEWED_SOURCES {
      return None;
    }
    var items := json.value.items;
    var read: seq<Binding> := [];
    var previous: Option<Text> := None;
    var seen: set<Text> := {};
    NoBindings(w, items);
    for i := 0 to |items|
      invariant EachBinding(w, items[..i]) == Some(read) && |read| == i && StepwiseSorted(read, PathKey)
      invariant previous == if i == 0 then None else Some(read[i - 1].path)
      invariant forall path :: path in seen <==> exists j :: 0 <= j < i && read[j].path == path
    {
      var next := ReadBinding(w, Some(items[i]));
      if next.None? {
        BadSource(w, items, i);
        return None;
      }
      BindingAppend(w, items, i, read, next.value);
      if next.value.path in seen {
        var j :| 0 <= j < i && read[j].path == next.value.path;
        RepeatedPath(read, next.value, j);
        UnsortedSource(w, items, read, next.value);
        return None;
      }
      SortedStep(read, next.value, PathKey);
      if previous.Some? {
        var diff := CompareUtf8(previous.value, next.value.path);
        if diff >= 0 {
          UnsortedSource(w, items, read, next.value);
          return None;
        }
      }
      read := read + [next.value];
      seen := seen + {next.value.path};
      previous := Some(next.value.path);
    }
    assert items[..|items|] == items;
    bindings := Some(read);
  }

  // ---------------------------------------------------------------------
  // Dependencies
  // ---------------------------------------------------------------------

  lemma BadNodeId(items: seq<Json>, i: nat)
    requires i < |items| && !(items[i].JsonText? && IsNodeId(items[i].text))
    ensures EachNodeId(items).None?
  {
  }

  lemma {:induction false} NodeIdsPrefix(items: seq<Json>, i: nat)
    requires i <= |items| && EachNodeId(items).Some?
    ensures EachNodeId(items[..i]).Some? && EachNodeId(items[..i]).value == EachNodeId(items).value[..i]
  {
    if i < |items| {
      assert items[..|items| - 1][..i] == items[..i];
      NodeIdsPrefix(items[..|items| - 1], i);
    } else {
      assert items[..i] == items;
    }
  }

  lemma NodeIdAppend(items: seq<Json>, i: nat, ids: seq<Text>)
    requires i < |items| && EachNodeId(items[..i]) == Some(ids) && items[i].JsonText? && IsNodeId(items[i].text)
    ensures EachNodeId(items[..i + 1]) == Some(ids + [items[i].text])
  {
    assert items[..i + 1][..i] == items[..i];
  }

  lemma NoNodeIds(items: seq<Json>)
    ensures EachNodeId(items[..0]) == Some([]) && StepwiseSorted<Text>([], UnitKey)
  {
  }

  ghost predicate ProperDependencies(ids: seq<Text>, sorted: bool) {
    Distinct(ids) && (sorted ==> StepwiseSorted(ids, UnitKey))
  }

  lemma SortedPrefix<T>(s: seq<T>, key: T -> seq<nat>, k: nat)
    requires k <= |s| && StepwiseSorted(s, key)
    ensures StepwiseSorted(s[..k], key)
  {
    assert forall i :: 0 <= i < k ==> s[..k][i] == s[i];
  }

  lemma ProperPrefix(ids: seq<Text>, k: nat, sorted: bool)
    requires k <= |ids|
    ensures ProperDependencies(ids, sorted) ==> ProperDependencies(ids[..k], sorted)
  {
    hide StepwiseSorted;
    if sorted && StepwiseSorted(ids, UnitKey) {
      SortedPrefix(ids, UnitKey, k);
    }
  }

  /** A bad start of the list spoils all of it. */
  lemma BadDependencies(items: seq<Json>, ids: seq<Text>, sorted: bool)
    requires |ids| <= |items| && EachNodeId(items[..|ids|]) == Some(ids) && !ProperDependencies(ids, sorted)
    ensures EachNodeId(items).Some? ==> !ProperDependencies(EachNodeId(items).value, sorted)
  {
    hide EachNodeId, ProperDependencies, IsNodeId;
    if EachNodeId(items).Some? {
      NodeIdsPrefix(items, |ids|);
      ProperPrefix(EachNodeId(items).value, |ids|, sorted);
    }
  }

  lemma ProperStep(ids: seq<Text>, next: Text, sorted: bool)
    requires ProperDependencies(ids, sorted)
    ensures ProperDependencies(ids + [next], sorted) <==>
      next !in ids && (sorted && ids != [] ==> Before(ids[|ids| - 1], next))
  {
    SortedStepIf(ids, next, sorted);
    if next !in ids {
      DistinctAppend(ids, next);
    } else {
      var j :| 0 <= j < |ids| && ids[j] == next;
      var all := ids + [next];
      assert all[j] == all[|ids|];
    }
  }

  lemma SortedStepIf(ids: seq<Text>, next: Text, sorted: bool)
    requires sorted ==> StepwiseSorted(ids, UnitKey)
    ensures sorted ==> (StepwiseSorted(ids + [next], UnitKey) <==> ids == [] || Before(ids[|ids| - 1], next))
  {
    if sorted {
      SortedStep(ids, next, UnitKey);
    }
  }

  method ReadDependsOn(json: Option<Json>, sorted: bool) returns (dependsOn: Option<seq<Text>>)
    ensures dependsOn == DependsOnOf(json, sorted)
  {
    hide IsNodeId, Before, EachNodeId, StepwiseSorted, Distinct;
    if !(json.Some? && json.value.JsonArray?) || |json.value.items| > MAX_DEPENDS_ON {
      return None;
    }
    var items := json.value.items;
    var read: seq<Text> := [];
    var previous: Option<Text> := None;
    var seen: set<Text> := {};
    NoNodeIds(items);
    NothingProper(sorted);
    for i := 0 to |items|
      invariant EachNodeId(items[..i]) == Some(read) && |read| == i && ProperDependencies(read, sorted)
      invariant previous == if i == 0 then None else Some(read[i - 1])
      invariant forall id :: id in seen <==> id in read
    {
      if !items[i].JsonText? || !IsNodeId(items[i].text) {
        BadNodeId(items, i);
        return None;
      }
      var entry := items[i].text;
      NodeIdAppend(items, i, read);
      ProperStep(read, entry, sorted);
      if entry in seen || (sorted && previous.Some? && !Before(previous.value, entry)) {
        BadDependencies(items, read + [entry], sorted);
        return None;
      }
      seen := seen + {entry};
      previous := Some(entry);
      read := read + [entry];
    }
    assert items[..|items|] == items;
    dependsOn := Some(read);
  }

  lemma NothingProper(sorted: bool)
    ensures ProperDependencies([], sorted)
  {
  }

  // ---------------------------------------------------------------------
  // Nodes
  // ---------------------------------------------------------------------

  /** One turn of the loop over the nodes. */
  method ReadNode(w: World, item: Json, manifest: bool, ghost before: seq<GoalNode>, seen: set<Text>, previous: Option<Text>,
                  edges: nat)
    returns (r: Outcome<GoalNode>)
    requires forall ref :: ref in seen <==> HasRef(before, ref)
    requires previous == if before == [] then None else Some(before[|before| - 1].nodeRef)
    requires edges == EdgeCount(before)
    ensures r == NodeOf(w, item, manifest, before)
  {
    hide IsNodeId, IsRepoPath, ReadBinding, Before, DependsOnOf, EdgeCount, HasRef;
    var ref := TextOf(Get(item, NodeRefField));
    if !OnlyFields(Some(item), NodeFields(manifest)) || ref.None? || !IsNodeId(ref.value) {
      return Rejected(MalformedArtifact, None);
    }
    if ref.value in seen {
      return Rejected(InvalidTopology, None);
    }
    if manifest && previous.Some? && !Before(previous.value, ref.value) {
      return Rejected(MalformedArtifact, None);
    }
    var storyRef := TextOf(Get(item, StoryRefField));
    if storyRef.None? || !IsRepoPath(w, storyRef.value) {
      return Rejected(MalformedArtifact, None);
    }
    var readiness: Option<Binding> := None;
    if manifest {
      readiness := ReadBinding(w, Get(item, ReadinessField));
      if readiness.None? || readiness.value.path != storyRef.value + READINESS_FILE {
        return Rejected(MalformedArtifact, None);
      }
    }
    var dependsOn := ReadDependsOn(Get(item, DependsOnField), manifest);
    if dependsOn.None? || edges + |dependsOn.value| > MAX_TOTAL_DEPENDS_ON_EDGES {
      return Rejected(MalformedArtifact, None);
    }
    r := Accepted(GoalNode(ref.value, storyRef.value, readiness, dependsOn.value));
  }

  lemma NodesStep(w: World, items: seq<Json>, i: nat, manifest: bool, before: seq<GoalNode>)
    requires i < |items|
    ensures NodesFrom(w, items[i..], manifest, before) ==
      match NodeOf(w, items[i], manifest, before)
      case Rejected(category, cause) => Rejected(category, cause)
      case Accepted(node) => NodesFrom(w, items[i + 1..], manifest, before + [node])
  {
    hide NodeOf;
    assert items[i..][1..] == items[i + 1..];
  }

  lemma MoreRefs(before: seq<GoalNode>, node: GoalNode, ref: Text)
    ensures HasRef(before + [node], ref) <==> HasRef(before, ref) || ref == node.nodeRef
  {
    var all := before + [node];
    if HasRef(before, ref) {
      var i :| 0 <= i < |before| && before[i].nodeRef == ref;
      assert all[i].nodeRef == ref;
    }
    assert all[|before|] == node;
  }

  lemma MoreEdges(before: seq<GoalNode>, node: GoalNode)
    ensures EdgeCount(before + [node]) == EdgeCount(before) + |node.dependsOn|
  {
    assert (before + [node])[..|before|] == before;
  }

  method ReadAllNodes(w: World, items: seq<Json>, manifest: bool) returns (r: Outcome<seq<GoalNode>>)
    ensures r == NodesFrom(w, items, manifest, [])
  {
    hide NodeOf, HasRef, EdgeCount, NodesFrom;
    var nodes: seq<GoalNode> := [];
    var seen: set<Text> := {};
    var previous: Option<Text> := None;
    var edges: nat := 0;
    assert items[0..] == items;
    NoNodes();
    for i := 0 to |items|
      invariant NodesFrom(w, items, manifest, []) == NodesFrom(w, items[i..], manifest, nodes)
      invariant forall ref :: ref in seen <==> HasRef(nodes, ref)
      invariant previous == if nodes == [] then None else Some(nodes[|nodes| - 1].nodeRef)
      invariant edges == EdgeCount(nodes)
    {
      NodesStep(w, items, i, manifest, nodes);
      var next := ReadNode(w, items[i], manifest, nodes, seen, previous, edges);
      if next.Rejected? {
        return Rejected(next.category, next.cause);
      }
      forall ref ensures HasRef(nodes + [next.value], ref) <==> HasRef(nodes, ref) || ref == next.value.nodeRef {
        MoreRefs(nodes, next.value, ref);
      }
      MoreEdges(nodes, next.value);
      seen := seen + {next.value.nodeRef};
      previous := Some(next.value.nodeRef);
      edges := edges + |next.value.dependsOn|;
      nodes := nodes + [next.value];
    }
    NodesEnd(w, items, manifest, nodes);
    r := Accepted(nodes);
  }

  lemma NoNodes()
    ensures EdgeCount([]) == 0 && forall ref :: !HasRef([], ref)
  {
  }

  lemma NodesEnd(w: World, items: seq<Json>, manifest: bool, nodes: seq<GoalNode>)
    ensures NodesFrom(w, items[|items|..], manifest, nodes) == Accepted(nodes)
  {
  }

  method ReadNodes(w: World, json: Option<Json>, manifest: bool) returns (r: Outcome<seq<GoalNode>>)
    ensures r == NodesOf(w, json, manifest)
  {
    hide NodesFrom, Fault;
    if !(json.Some? && json.value.JsonArray?) || !(1 <= |json.value.items| <= MAX_NODES) {
      return Rejected(MalformedArtifact, None);
    }
    r := ReadAllNodes(w, json.value.items, manifest);
    if r.Accepted? {
      var fault, cycle := ValidateTopology(Shapes(r.value));
      if fault.Some? {
        r := Rejected(InvalidTopology, None);
      }
    }
  }

  // ---------------------------------------------------------------------
  // Whole artifacts
  // ---------------------------------------------------------------------

  method ReadDeclarationShape(w: World, json: Json) returns (r: Outcome<Declaration>)
    ensures r == DeclarationShape(w, json)
  {
    hide ReadPlanIdentity, NodesOf;
    if !OnlyFields(Some(json), {SchemaVersionField, PlanField, NodesField}) {
      return Rejected(MalformedArtifact, None);
    }
    var plan := ReadPlanIdentity(Get(json, PlanField));
    if plan.None? {
      return Rejected(MalformedArtifact, None);
    }
    var nodes := ReadNodes(w, Get(json, NodesField), false);
    r := match nodes
      case Rejected(category, cause) => Rejected(category, cause)
      case Accepted(list) => Accepted(Declaration(plan.value, list));
  }

  method ValidateDeclaration(w: World, bytes: Bytes) returns (r: Outcome<Declaration>)
    ensures r == DeclarationOf(w, bytes)
  {
    hide DeclarationShape;
    var json := ParseJson(w, bytes, MAX_DECLARATION_BYTES, MAX_DECLARATION_JSON_DEPTH);
    if json.None? {
      return Rejected(MalformedArtifact, None);
    }
    if !SupportedSchema(json.value) {
      return Rejected(UnsupportedSchema, None);
    }
    r := ReadDeclarationShape(w, json.value);
  }

  method ReadManifestShape(w: World, json: Json) returns (r: Outcome<Manifest>)
    ensures r == ManifestShape(w, json)
  {
    hide ReadPlanIdentity, NodesOf, ReadBinding, ReviewedSourcesOf, ReadCoverageIndex;
    if !OnlyFields(Some(json), {SchemaVersionField, PlanField, DeclarationField, NodesField, ReviewedSourcesField, CoverageIndexField}) {
      return Rejected(MalformedArtifact, None);
    }
    var plan, declaration := ReadPlanIdentity(Get(json, PlanField)), ReadBinding(w, Get(json, DeclarationField));
    if plan.None? || declaration.None? {
      return Rejected(MalformedArtifact, None);
    }
    var sources := ReadReviewedSources(w, Get(json, ReviewedSourcesField));
    var index := ReadCoverageIndex(w, Get(json, CoverageIndexField));
    if sources.None? || index.None? {
      return Rejected(MalformedArtifact, None);
    }
    var nodes := ReadNodes(w, Get(json, NodesField), true);
    r := match nodes
      case Rejected(category, cause) => Rejected(category, cause)
      case Accepted(list) => Accepted(Manifest(plan.value, declaration.value, list, sources.value, index.value));
  }

  method ValidateManifestStructure(w: World, bytes: Bytes) returns (r: Outcome<Manifest>)
    ensures r == ManifestStructure(w, bytes)
  {
    hide ManifestShape;
    var json := ParseJson(w, bytes, MAX_ARTIFACT_BYTES, MAX_JSON_DEPTH);
    if json.None? {
      return Rejected(MalformedArtifact, None);
    }
    if !SupportedSchema(json.value) {
      return Rejected(UnsupportedSchema, None);
    }
    r := ReadManifestShape(w, json.value);
  }

  method ValidateReviewStructure(w: World, bytes: Bytes) returns (r: Outcome<Review>)
    ensures r == ReviewStructure(w, bytes)
  {
    hide ReviewedSourcesOf, ReadCoverageIndex, ReadReviewer;
    var parsed := ParseJson(w, bytes, MAX_ARTIFACT_BYTES, MAX_JSON_DEPTH);
    if parsed.None? {
      return Rejected(MalformedArtifact, None);
    }
    var json := parsed.value;
    if !SupportedSchema(json) {
      return Rejected(UnsupportedSchema, None);
    }
    var reviewId, digest := TextOf(Get(json, ReviewIdField)), TextOf(Get(json, ManifestSha256Field));
    if !OnlyFields(Some(json), {SchemaVersionField, ReviewIdField, ManifestSha256Field, ReviewedSourcesField,
                                CoverageIndexField, ConclusionField, ReviewerField, ReviewedAtField})
       || reviewId.None? || !w.reviewIdPattern(reviewId.value) || digest.None? || !IsSha256(digest.value)
    {
      return Rejected(MalformedArtifact, None);
    }
    var sources := ReadReviewedSources(w, Get(json, ReviewedSourcesField));
    var index := ReadCoverageIndex(w, Get(json, CoverageIndexField));
    if sources.None? || index.None? || TextOf(Get(json, ConclusionField)) != Some(APPROVED) {
      return Rejected(MalformedArtifact, None);
    }
    var reviewer, at := ReadReviewer(w, Get(json, ReviewerField)), TextOf(Get(json, ReviewedAtField));
    if reviewer.None? || at.None? || !w.realDateTime(at.value) {
      return Rejected(MalformedArtifact, None);
    }
    r := Accepted(Review(reviewId.value, digest.value, sources.value, index.value, reviewer.value, at.value));
  }

  // ---------------------------------------------------------------------
  // Comparisons
  // ---------------------------------------------------------------------

  lemma DeclaredAppend(nodes: seq<GoalNode>, node: GoalNode, ref: Text)
    ensures Declared(nodes + [node], ref) == if node.nodeRef == ref then Some(node) else Declared(nodes, ref)
  {
    assert (nodes + [node])[..|nodes|] == nodes;
  }

  method DeclaredByRef(nodes: seq<GoalNode>) returns (declared: map<Text, GoalNode>)
    ensures forall ref :: Declared(nodes, ref) == if ref in declared then Some(declared[ref]) else None
  {
    declared := map[];
    for i := 0 to |nodes|
      invariant forall ref :: Declared(nodes[..i], ref) == if ref in declared then Some(declared[ref]) else None
    {
      assert nodes[..i + 1] == nodes[..i] + [nodes[i]];
      forall ref ensures Declared(nodes[..i + 1], ref) == if nodes[i].nodeRef == ref then Some(nodes[i]) else Declared(nodes[..i], ref) {
        DeclaredAppend(nodes[..i], nodes[i], ref);
      }
      declared := declared[nodes[i].nodeRef := nodes[i]];
    }
    assert nodes[..|nodes|] == nodes;
  }

  method MatchDeclarationToManifest(declaration: Declaration, manifest: Manifest) returns (ok: bool)
    ensures ok == Matches(declaration, manifest)
  {
    hide Declared, SameStringSet;
    if declaration.plan != manifest.plan || |declaration.nodes| != |manifest.nodes| {
      return false;
    }
    var declared := DeclaredByRef(declaration.nodes);
    for i := 0 to |manifest.nodes|
      invariant forall j :: 0 <= j < i ==> NodeMatches(declaration.nodes, manifest.nodes[j])
    {
      var node := manifest.nodes[i];
      if node.nodeRef !in declared || declared[node.nodeRef].storyRef != node.storyRef
         || !SameStringSet(declared[node.nodeRef].dependsOn, node.dependsOn)
      {
        assert !NodeMatches(declaration.nodes, manifest.nodes[i]);
        return false;
      }
    }
    ok := true;
  }

  method VerifyBindings(w: World, bindings: seq<Binding>, sources: Sources) returns (ok: bool)
    ensures ok == EachBound(w, bindings, sources)
  {
    for i := 0 to |bindings|
      invariant forall j :: 0 <= j < i ==> Bound(w, bindings[j], sources)
    {
      if !Bound(w, bindings[i], sources) {
        return false;
      }
    }
    ok := true;
  }

  method VerifyReadiness(w: World, nodes: seq<GoalNode>, sources: Sources) returns (ok: bool)
    ensures ok == ReadinessBound(w, nodes, sources)
  {
    for i := 0 to |nodes|
      invariant forall j :: 0 <= j < i && nodes[j].readiness.Some? ==> Bound(w, nodes[j].readiness.value, sources)
    {
      if nodes[i].readiness.Some? && !Bound(w, nodes[i].readiness.value, sources) {
        return false;
      }
    }
    ok := true;
  }

  method ValidateManifest(w: World, bytes: Bytes, sources: Option<Sources>) returns (r: Outcome<Manifest>)
    ensures r == ManifestOf(w, bytes, sources)
  {
    hide ManifestStructure, DeclarationOf, Matches, EachBound, ReadinessBound;
    r := ValidateManifestStructure(w, bytes);
    if r.Rejected? {
      return;
    }
    var manifest := r.value;
    if sources.None? || !Bound(w, manifest.declaration, sources.value) {
      return Reject(DigestMismatch);
    }
    var declaration := ValidateDeclaration(w, sources.value[manifest.declaration.path]);
    if declaration.Rejected? {
      return Rejected(declaration.category, Some(declaration.category));
    }
    var matching := MatchDeclarationToManifest(declaration.value, manifest);
    if !matching {
      return Reject(InvalidTopology);
    }
    var reviewed := VerifyBindings(w, manifest.reviewedSources, sources.value);
    if !reviewed {
      return Reject(DigestMismatch);
    }
    var ready := VerifyReadiness(w, manifest.nodes, sources.value);
    if !ready {
      return Reject(DigestMismatch);
    }
  }

  method ValidateReview(w: World, reviewBytes: Bytes, manifestBytes: Bytes, sources: Option<Sources>) returns (r: Outcome<Review>)
    ensures r == ReviewOf(w, reviewBytes, manifestBytes, sources)
  {
    hide ReviewStructure, ManifestOf, SameBindings;
    r := ValidateReviewStructure(w, reviewBytes);
    if r.Rejected? {
      return;
    }
    var review := r.value;
    if |manifestBytes| > MAX_ARTIFACT_BYTES {
      return Reject(MalformedArtifact);
    }
    if review.manifestSha256 != w.hash(manifestBytes) {
      return Reject(ApprovalBindingMismatch);
    }
    var manifest := ValidateManifest(w, manifestBytes, sources);
    if manifest.Rejected? {
      return Rejected(if manifest.category == DigestMismatch then DigestMismatch else ApprovalBindingMismatch, Some(manifest.category));
    }
    if !SameBindings(review.reviewedSources, manifest.value.reviewedSources) || review.coverageIndex != manifest.value.coverageIndex {
      return Reject(ApprovalBindingMismatch);
    }
  }
}
