/**
 What the readers accept: exactly the proper artifacts, and a proper artifact is read back from
 what is written for it (packages/core/src/goal-plan-artifacts.ts:640-887, 941-1305, 1552-1705).
 */
module GoalPlanWriting {
  import opened Foundations
  import opened TextOrder
  import opened Topology
  import opened GoalPlanModel
  import opened GoalPlanReaders

  // ---------------------------------------------------------------------
  // Proper nodes
  // ---------------------------------------------------------------------

  function Refs(nodes: seq<GoalNode>): (refs: seq<Text>)
    ensures |refs| == |nodes| && forall i :: 0 <= i < |nodes| ==> refs[i] == nodes[i].nodeRef
  {
    if nodes == [] then [] else Refs(nodes[..|nodes| - 1]) + [nodes[|nodes| - 1].nodeRef]
  }

  ghost predicate ProperNode(w: World, node: GoalNode, manifest: bool) {
    && IsNodeId(node.nodeRef) && IsRepoPath(w, node.storyRef)
    && node.readiness.Some? == manifest
    && (manifest ==> ProperBinding(w, node.readiness.value) && node.readiness.value.path == node.storyRef + READINESS_FILE)
    && |node.dependsOn| <= MAX_DEPENDS_ON && ProperDependencies(node.dependsOn, manifest)
    && forall d :: 0 <= d < |node.dependsOn| ==> IsNodeId(node.dependsOn[d])
  }

  /** What the loop over the nodes keeps. */
  ghost predicate ProperPart(w: World, nodes: seq<GoalNode>, manifest: bool) {
    && (forall i :: 0 <= i < |nodes| ==> ProperNode(w, nodes[i], manifest))
    && Distinct(Refs(nodes)) && (manifest ==> StepwiseSorted(nodes, RefKey))
    && EdgeCount(nodes) <= MAX_TOTAL_DEPENDS_ON_EDGES
  }

  ghost predicate ProperNodes(w: World, nodes: seq<GoalNode>, manifest: bool) {
    1 <= |nodes| <= MAX_NODES && ProperPart(w, nodes, manifest) && Fault(Shapes(nodes)).None?
  }

  lemma RefsAppend(nodes: seq<GoalNode>, node: GoalNode)
    ensures Refs(nodes + [node]) == Refs(nodes) + [node.nodeRef]
  {
    assert (nodes + [node])[..|nodes|] == nodes;
  }

  lemma HasRefMeaning(nodes: seq<GoalNode>, ref: Text)
    ensures HasRef(nodes, ref) <==> ref in Refs(nodes)
  {
    if HasRef(nodes, ref) {
      var i :| 0 <= i < |nodes| && nodes[i].nodeRef == ref;
      assert Refs(nodes)[i] == ref;
    }
    if ref in Refs(nodes) {
      var i :| 0 <= i < |Refs(nodes)| && Refs(nodes)[i] == ref;
      assert nodes[i].nodeRef == ref;
    }
  }

  lemma DistinctFront<T>(s: seq<T>, x: T)
    ensures Distinct(s + [x]) <==> Distinct(s) && x !in s
  {
    if Distinct(s) && x !in s {
      DistinctAppend(s, x);
    }
    if Distinct(s + [x]) {
      var all := s + [x];
      forall i, j | 0 <= i < j < |s| ensures s[i] != s[j] {
        assert all[i] != all[j];
      }
      forall i | 0 <= i < |s| ensures s[i] != x {
        assert all[i] != all[|s|];
      }
    }
  }

  lemma SortedFront<T>(s: seq<T>, x: T, key: T -> seq<nat>)
    ensures StepwiseSorted(s + [x], key) ==> StepwiseSorted(s, key)
  {
    if StepwiseSorted(s + [x], key) {
      SortedPrefix(s + [x], key, |s|);
      assert (s + [x])[..|s|] == s;
    }
  }

  /** One more node. */
  lemma PartAppend(w: World, nodes: seq<GoalNode>, node: GoalNode, manifest: bool)
    ensures ProperPart(w, nodes + [node], manifest) <==>
      && ProperPart(w, nodes, manifest) && ProperNode(w, node, manifest) && !HasRef(nodes, node.nodeRef)
      && (manifest && nodes != [] ==> Before(nodes[|nodes| - 1].nodeRef, node.nodeRef))
      && EdgeCount(nodes) + |node.dependsOn| <= MAX_TOTAL_DEPENDS_ON_EDGES
  {
    hide ProperNode, Distinct, StepwiseSorted, HasRef, EdgeCount, Refs, Before;
    RefsAppend(nodes, node);
    DistinctFront(Refs(nodes), node.nodeRef);
    HasRefMeaning(nodes, node.nodeRef);
    MoreEdges(nodes, node);
    SortedFront(nodes, node, RefKey);
    if StepwiseSorted(nodes, RefKey) {
      SortedStep(nodes, node, RefKey);
    }
    NodesAppend(w, nodes, node, manifest);
  }

  lemma NodesAppend(w: World, nodes: seq<GoalNode>, node: GoalNode, manifest: bool)
    ensures (forall i :: 0 <= i < |nodes| + 1 ==> ProperNode(w, (nodes + [node])[i], manifest)) <==>
      (forall i :: 0 <= i < |nodes| ==> ProperNode(w, nodes[i], manifest)) && ProperNode(w, node, manifest)
  {
    hide ProperNode;
    var all := nodes + [node];
    assert all[|nodes|] == node;
    assert forall i :: 0 <= i < |nodes| ==> all[i] == nodes[i];
  }

  // ---------------------------------------------------------------------
  // Everything read is proper
  // ---------------------------------------------------------------------

  lemma DependenciesRead(json: Option<Json>, sorted: bool)
    requires DependsOnOf(json, sorted).Some?
    ensures var ids := DependsOnOf(json, sorted).value;
      |ids| <= MAX_DEPENDS_ON && ProperDependencies(ids, sorted) && forall d :: 0 <= d < |ids| ==> IsNodeId(ids[d])
  {
    hide IsNodeId, StepwiseSorted;
  }

  lemma NodeRead(w: World, item: Json, manifest: bool, before: seq<GoalNode>)
    requires NodeOf(w, item, manifest, before).Accepted?
    ensures var node := NodeOf(w, item, manifest, before).value;
      && ProperNode(w, node, manifest) && !HasRef(before, node.nodeRef)
      && (manifest && before != [] ==> Before(before[|before| - 1].nodeRef, node.nodeRef))
      && EdgeCount(before) + |node.dependsOn| <= MAX_TOTAL_DEPENDS_ON_EDGES
  {
    hide IsNodeId, IsRepoPath, HasRef, EdgeCount, Before, DependsOnOf, ProperDependencies, ReadBinding, OnlyFields;
    DependenciesRead(Get(item, DependsOnField), manifest);
  }

  lemma {:induction false} NodesRead(w: World, items: seq<Json>, manifest: bool, before: seq<GoalNode>)
    requires ProperPart(w, before, manifest) && NodesFrom(w, items, manifest, before).Accepted?
    ensures ProperPart(w, NodesFrom(w, items, manifest, before).value, manifest)
    ensures |NodesFrom(w, items, manifest, before).value| == |before| + |items|
    decreases |items|
  {
    hide ProperPart, NodeOf, ProperNode;
    if items != [] {
      NodeRead(w, items[0], manifest, before);
      var node := NodeOf(w, items[0], manifest, before).value;
      PartAppend(w, before, node, manifest);
      NodesRead(w, items[1..], manifest, before + [node]);
    }
  }

  lemma NothingIsProper(w: World, manifest: bool)
    ensures ProperPart(w, [], manifest)
  {
  }

  lemma NodesAreProper(w: World, json: Option<Json>, manifest: bool)
    requires NodesOf(w, json, manifest).Accepted?
    ensures ProperNodes(w, NodesOf(w, json, manifest).value, manifest)
  {
    hide ProperPart, NodesFrom, Fault;
    NothingIsProper(w, manifest);
    NodesRead(w, json.value.items, manifest, []);
  }

  // ---------------------------------------------------------------------
  // Everything proper is read back
  // ---------------------------------------------------------------------

  function TextsJson(texts: seq<Text>): (json: seq<Json>)
    ensures |json| == |texts| && forall i :: 0 <= i < |texts| ==> json[i] == JsonText(texts[i])
  {
    if texts == [] then [] else TextsJson(texts[..|texts| - 1]) + [JsonText(texts[|texts| - 1])]
  }

  function BindingJson(binding: Binding): Json {
    JsonObject(map[PathField := JsonText(binding.path), Sha256Field := JsonText(binding.sha256)])
  }

  lemma BindingRoundTrip(w: World, binding: Binding)
    ensures ReadBinding(w, Some(BindingJson(binding))) == if ProperBinding(w, binding) then Some(binding) else None
  {
    hide IsRepoPath, IsSha256;
  }

  function BindingsJson(bindings: seq<Binding>): (json: seq<Json>)
    ensures |json| == |bindings| && forall i :: 0 <= i < |bindings| ==> json[i] == BindingJson(bindings[i])
  {
    if bindings == [] then [] else BindingsJson(bindings[..|bindings| - 1]) + [BindingJson(bindings[|bindings| - 1])]
  }

  function NodeJson(node: GoalNode): Json {
    JsonObject(
      if node.readiness.Some? then
        map[NodeRefField := JsonText(node.nodeRef), StoryRefField := JsonText(node.storyRef),
            ReadinessField := BindingJson(node.readiness.value), DependsOnField := JsonArray(TextsJson(node.dependsOn))]
      else
        map[NodeRefField := JsonText(node.nodeRef), StoryRefField := JsonText(node.storyRef),
            DependsOnField := JsonArray(TextsJson(node.dependsOn))])
  }

  function NodesJson(nodes: seq<GoalNode>): (json: seq<Json>)
    ensures |json| == |nodes| && forall i :: 0 <= i < |nodes| ==> json[i] == NodeJson(nodes[i])
  {
    if nodes == [] then [] else NodesJson(nodes[..|nodes| - 1]) + [NodeJson(nodes[|nodes| - 1])]
  }

  lemma DependenciesWritten(ids: seq<Text>, sorted: bool)
    requires |ids| <= MAX_DEPENDS_ON && ProperDependencies(ids, sorted)
    requires forall d :: 0 <= d < |ids| ==> IsNodeId(ids[d])
    ensures DependsOnOf(Some(JsonArray(TextsJson(ids))), sorted) == Some(ids)
  {
    hide IsNodeId, StepwiseSorted, Distinct;
    var items := TextsJson(ids);
    assert EachNodeId(items).Some?;
    assert EachNodeId(items).value == ids;
  }

  lemma NodeWritten(w: World, node: GoalNode, manifest: bool, before: seq<GoalNode>)
    requires ProperNode(w, node, manifest) && !HasRef(before, node.nodeRef)
    requires manifest && before != [] ==> Before(before[|before| - 1].nodeRef, node.nodeRef)
    requires EdgeCount(before) + |node.dependsOn| <= MAX_TOTAL_DEPENDS_ON_EDGES
    ensures NodeOf(w, NodeJson(node), manifest, before) == Accepted(node)
  {
    hide IsNodeId, IsRepoPath, HasRef, EdgeCount, Before, DependsOnOf, ProperDependencies, ReadBinding, ProperBinding, TextsJson, BindingJson;
    DependenciesWritten(node.dependsOn, manifest);
    if manifest {
      BindingRoundTrip(w, node.readiness.value);
    }
  }

  lemma {:induction false} NodesWritten(w: World, nodes: seq<GoalNode>, k: nat, manifest: bool)
    requires k <= |nodes| && ProperPart(w, nodes, manifest)
    ensures NodesFrom(w, NodesJson(nodes)[k..], manifest, nodes[..k]) == Accepted(nodes)
    decreases |nodes| - k
  {
    hide ProperPart, NodeOf, ProperNode, NodeJson, HasRef, EdgeCount, Before;
    if k == |nodes| {
      assert nodes[..k] == nodes;
    } else {
      var before, node := nodes[..k], nodes[k];
      assert nodes[..k + 1] == before + [node];
      PartPrefix(w, nodes, k + 1, manifest);
      PartAppend(w, before, node, manifest);
      NodeWritten(w, node, manifest, before);
      NodesStep(w, NodesJson(nodes), k, manifest, before);
      NodesWritten(w, nodes, k + 1, manifest);
    }
  }

  lemma {:induction false} PartPrefix(w: World, nodes: seq<GoalNode>, k: nat, manifest: bool)
    requires k <= |nodes| && ProperPart(w, nodes, manifest)
    ensures ProperPart(w, nodes[..k], manifest)
    decreases |nodes|
  {
    hide ProperPart, ProperNode, HasRef, EdgeCount, Before;
    if k == |nodes| {
      assert nodes[..k] == nodes;
    } else {
      var front := nodes[..|nodes| - 1];
      assert nodes == front + [nodes[|nodes| - 1]];
      PartAppend(w, front, nodes[|nodes| - 1], manifest);
      PartPrefix(w, front, k, manifest);
      assert front[..k] == nodes[..k];
    }
  }

  /** Nodes survive being written and read exactly if they are proper. */
  lemma NodesRoundTrip(w: World, nodes: seq<GoalNode>, manifest: bool)
    ensures NodesOf(w, Some(JsonArray(NodesJson(nodes))), manifest) == Accepted(nodes) <==> ProperNodes(w, nodes, manifest)
  {
    hide ProperPart, NodesFrom, Fault;
    var json := Some(JsonArray(NodesJson(nodes)));
    if NodesOf(w, json, manifest) == Accepted(nodes) {
      NodesAreProper(w, json, manifest);
    }
    if ProperNodes(w, nodes, manifest) {
      NodesWritten(w, nodes, 0, manifest);
      assert NodesJson(nodes)[0..] == NodesJson(nodes) && nodes[..0] == [];
    }
  }

  // ---------------------------------------------------------------------
  // Whole artifacts
  // ---------------------------------------------------------------------

  predicate ProperSources(w: World, bindings: seq<Binding>) {
    && |bindings| <= MAX_REVIEWED_SOURCES && StepwiseSorted(bindings, PathKey)
    && forall i :: 0 <= i < |bindings| ==> ProperBinding(w, bindings[i])
  }

  ghost predicate ProperDeclaration(w: World, d: Declaration) {
    ProperPlan(d.plan) && ProperNodes(w, d.nodes, false)
  }

  ghost predicate ProperManifest(w: World, m: Manifest) {
    && ProperPlan(m.plan) && ProperBinding(w, m.declaration) && ProperNodes(w, m.nodes, true)
    && ProperSources(w, m.reviewedSources) && ProperCoverage(w, m.coverageIndex)
  }

  predicate ProperReview(w: World, r: Review) {
    && w.reviewIdPattern(r.reviewId) && IsSha256(r.manifestSha256) && ProperSources(w, r.reviewedSources)
    && ProperCoverage(w, r.coverageIndex) && w.reviewerName(r.reviewer) && w.realDateTime(r.reviewedAt)
  }

  function PlanJson(id: Text, revision: Option<int>): Json {
    JsonObject(map[IdField := JsonText(id), RevisionField := JsonNumber(revision)])
  }

  function CoverageJson(index: CoverageIndex): Json {
    JsonObject(map[BatchIdField := JsonText(index.batchId), FingerprintField := JsonText(index.fingerprint)])
  }

  function DeclarationJson(id: Text, revision: Option<int>, nodes: seq<GoalNode>): Json {
    JsonObject(map[SchemaVersionField := JsonText(SCHEMA_VERSION), PlanField := PlanJson(id, revision),
                   NodesField := JsonArray(NodesJson(nodes))])
  }

  function ManifestJson(id: Text, revision: Option<int>, declaration: Binding, nodes: seq<GoalNode>,
                        sources: seq<Binding>, index: CoverageIndex): Json {
    JsonObject(map[SchemaVersionField := JsonText(SCHEMA_VERSION), PlanField := PlanJson(id, revision),
                   DeclarationField := BindingJson(declaration), NodesField := JsonArray(NodesJson(nodes)),
                   ReviewedSourcesField := JsonArray(BindingsJson(sources)), CoverageIndexField := CoverageJson(index)])
  }

  function ReviewerJson(name: Text): Json {
    JsonObject(map[NameField := JsonText(name), AssuranceField := JsonText(SELF_ASSERTED)])
  }

  function ReviewJson(r: Review): Json {
    JsonObject(map[SchemaVersionField := JsonText(SCHEMA_VERSION), ReviewIdField := JsonText(r.reviewId),
                   ManifestSha256Field := JsonText(r.manifestSha256), ReviewedSourcesField := JsonArray(BindingsJson(r.reviewedSources)),
                   CoverageIndexField := CoverageJson(r.coverageIndex), ConclusionField := JsonText(APPROVED),
                   ReviewerField := ReviewerJson(r.reviewer),
                   ReviewedAtField := JsonText(r.reviewedAt)])
  }

  lemma PlanRoundTrip(id: Text, revision: Option<int>)
    ensures ReadPlanIdentity(Some(PlanJson(id, revision))) ==
      if revision.Some? && ProperPlan(PlanIdentity(id, revision.value)) then Some(PlanIdentity(id, revision.value)) else None
  {
    hide IsNodeId;
  }

  lemma CoverageRoundTrip(w: World, index: CoverageIndex)
    ensures ReadCoverageIndex(w, Some(CoverageJson(index))) == if ProperCoverage(w, index) then Some(index) else None
  {
    hide IsSha256;
  }

  lemma SourcesRoundTrip(w: World, bindings: seq<Binding>)
    ensures ReviewedSourcesOf(w, Some(JsonArray(BindingsJson(bindings)))) ==
      if ProperSources(w, bindings) then Some(bindings) else None
  {
    hide ReadBinding, ProperBinding, BindingJson, StepwiseSorted;
    var items := BindingsJson(bindings);
    forall i | 0 <= i < |bindings| ensures ReadBinding(w, Some(items[i])) == if ProperBinding(w, bindings[i]) then Some(bindings[i]) else None {
      BindingRoundTrip(w, bindings[i]);
    }
    if EachBinding(w, items).Some? {
      assert EachBinding(w, items).value == bindings;
    }
  }

  lemma SourcesAreProper(w: World, json: Option<Json>)
    requires ReviewedSourcesOf(w, json).Some?
    ensures ProperSources(w, ReviewedSourcesOf(w, json).value)
  {
    hide ReadBinding, StepwiseSorted;
    var items, bindings := json.value.items, ReviewedSourcesOf(w, json).value;
    forall i | 0 <= i < |bindings| ensures ProperBinding(w, bindings[i]) {
      assert ReadBinding(w, Some(items[i])) == Some(bindings[i]);
    }
  }

  lemma DeclarationRoundTrip(w: World, id: Text, revision: Option<int>, nodes: seq<GoalNode>)
    requires forall i :: 0 <= i < |nodes| ==> nodes[i].readiness.None?
    ensures var r := DeclarationShape(w, DeclarationJson(id, revision, nodes));
      && (r.Accepted? ==> revision.Some? && r.value == Declaration(PlanIdentity(id, revision.value), nodes))
      && (r.Accepted? <==> revision.Some? && ProperDeclaration(w, Declaration(PlanIdentity(id, revision.value), nodes)))
  {
    hide ReadPlanIdentity, NodesOf, ProperNodes, ProperPlan, PlanJson, NodesJson;
    var json := DeclarationJson(id, revision, nodes);
    assert Get(json, PlanField) == Some(PlanJson(id, revision)) && Get(json, NodesField) == Some(JsonArray(NodesJson(nodes)));
    PlanRoundTrip(id, revision);
    NodesReadBack(w, nodes, false);
  }

  lemma {:induction false} NodesKept(w: World, nodes: seq<GoalNode>, k: nat, manifest: bool)
    requires k <= |nodes| && NodesFrom(w, NodesJson(nodes)[k..], manifest, nodes[..k]).Accepted?
    requires forall i :: 0 <= i < |nodes| ==> nodes[i].readiness.Some? == manifest
    ensures NodesFrom(w, NodesJson(nodes)[k..], manifest, nodes[..k]) == Accepted(nodes)
    decreases |nodes| - k
  {
    hide NodeOf, NodeJson;
    if k == |nodes| {
      assert nodes[..k] == nodes;
    } else {
      NodesStep(w, NodesJson(nodes), k, manifest, nodes[..k]);
      NodeKept(w, nodes[k], manifest, nodes[..k]);
      assert nodes[..k + 1] == nodes[..k] + [nodes[k]];
      NodesKept(w, nodes, k + 1, manifest);
    }
  }

  lemma NodeKept(w: World, node: GoalNode, manifest: bool, before: seq<GoalNode>)
    requires NodeOf(w, NodeJson(node), manifest, before).Accepted? && node.readiness.Some? == manifest
    ensures NodeOf(w, NodeJson(node), manifest, before).value == node
  {
    hide IsNodeId, IsRepoPath, HasRef, EdgeCount, Before, ReadBinding, BindingJson, StepwiseSorted, Distinct, ProperBinding,
      DependsOnOf, TextsJson, OnlyFields;
    if manifest {
      BindingRoundTrip(w, node.readiness.value);
    }
    DependenciesKept(node.dependsOn, manifest);
  }

  lemma DependenciesKept(ids: seq<Text>, sorted: bool)
    requires DependsOnOf(Some(JsonArray(TextsJson(ids))), sorted).Some?
    ensures DependsOnOf(Some(JsonArray(TextsJson(ids))), sorted).value == ids
  {
    hide IsNodeId, StepwiseSorted, Distinct;
  }

  /** What is written for nodes of one kind is read back as these nodes or not at all. */
  lemma NodesReadBack(w: World, nodes: seq<GoalNode>, manifest: bool)
    requires forall i :: 0 <= i < |nodes| ==> nodes[i].readiness.Some? == manifest
    ensures var r := NodesOf(w, Some(JsonArray(NodesJson(nodes))), manifest);
      && (r.Accepted? ==> r.value == nodes) && (r.Accepted? <==> ProperNodes(w, nodes, manifest))
  {
    hide NodesFrom, Fault, ProperNodes, NodesJson;
    NodesRoundTrip(w, nodes, manifest);
    var json := Some(JsonArray(NodesJson(nodes)));
    if NodesOf(w, json, manifest).Accepted? {
      assert NodesJson(nodes)[0..] == NodesJson(nodes) && nodes[..0] == [];
      NodesKept(w, nodes, 0, manifest);
    }
  }

  lemma ManifestRoundTrip(w: World, id: Text, revision: Option<int>, declaration: Binding, nodes: seq<GoalNode>,
                          sources: seq<Binding>, index: CoverageIndex)
    requires forall i :: 0 <= i < |nodes| ==> nodes[i].readiness.Some?
    ensures var r := ManifestShape(w, ManifestJson(id, revision, declaration, nodes, sources, index));
      && (r.Accepted? ==> revision.Some? && r.value == Manifest(PlanIdentity(id, revision.value), declaration, nodes, sources, index))
      && (r.Accepted? <==>
            revision.Some? && ProperManifest(w, Manifest(PlanIdentity(id, revision.value), declaration, nodes, sources, index)))
  {
    hide ReadPlanIdentity, NodesOf, ProperNodes, ProperPlan, PlanJson, NodesJson, ReadBinding, ProperBinding, BindingJson,
      ReviewedSourcesOf, ProperSources, BindingsJson, ReadCoverageIndex, ProperCoverage, CoverageJson;
    PlanRoundTrip(id, revision);
    BindingRoundTrip(w, declaration);
    SourcesRoundTrip(w, sources);
    CoverageRoundTrip(w, index);
    NodesReadBack(w, nodes, true);
  }

  lemma ReviewRoundTrip(w: World, r: Review)
    ensures ReviewShape(w, ReviewJson(r)) == if ProperReview(w, r) then Some(r) else None
  {
    hide ProperSources, ReviewedSourcesOf, BindingsJson, ReadCoverageIndex, ProperCoverage, CoverageJson, IsSha256;
    SourcesRoundTrip(w, r.reviewedSources);
    CoverageRoundTrip(w, r.coverageIndex);
  }

  lemma DeclarationIsProper(w: World, bytes: Bytes)
    requires DeclarationOf(w, bytes).Accepted?
    ensures ProperDeclaration(w, DeclarationOf(w, bytes).value)
  {
    hide NodesOf, ProperNodes, ReadPlanIdentity, ProperPlan;
    var json := ParseJson(w, bytes, MAX_DECLARATION_BYTES, MAX_DECLARATION_JSON_DEPTH).value;
    NodesAreProper(w, Get(json, NodesField), false);
  }

  lemma ManifestIsProper(w: World, bytes: Bytes)
    requires ManifestStructure(w, bytes).Accepted?
    ensures ProperManifest(w, ManifestStructure(w, bytes).value)
  {
    hide NodesOf, ProperNodes, ReadPlanIdentity, ProperPlan, ReadBinding, ProperBinding, ReviewedSourcesOf, ProperSources,
      ReadCoverageIndex, ProperCoverage;
    var json := ParseJson(w, bytes, MAX_ARTIFACT_BYTES, MAX_JSON_DEPTH).value;
    NodesAreProper(w, Get(json, NodesField), true);
    SourcesAreProper(w, Get(json, ReviewedSourcesField));
  }

  lemma ReviewIsProper(w: World, bytes: Bytes)
    requires ReviewStructure(w, bytes).Accepted?
    ensures ProperReview(w, ReviewStructure(w, bytes).value)
  {
    hide ReviewedSourcesOf, ProperSources, ReadCoverageIndex, ProperCoverage, ReadReviewer, IsSha256;
    var json := ParseJson(w, bytes, MAX_ARTIFACT_BYTES, MAX_JSON_DEPTH).value;
    SourcesAreProper(w, Get(json, ReviewedSourcesField));
  }
}
