/**
 When the exporters accept, stated about their input
 (packages/core/src/goal-plan-artifacts.ts:1878-1957, 1970-2042).
 */
module GoalPlanComplete {
  import opened Foundations
  import opened TextOrder
  import opened Topology
  import opened GoalPlanModel
  import opened GoalPlanReaders
  import opened GoalPlanWriting
  import opened GoalPlanBinding
  import opened GoalPlanExport

  // ---------------------------------------------------------------------
  // Good nodes, in any order
  // ---------------------------------------------------------------------

  /** As `ProperNode`, but the dependencies only have to differ. */
  ghost predicate GoodNode(w: World, node: GoalNode, manifest: bool) {
    && IsNodeId(node.nodeRef) && IsRepoPath(w, node.storyRef)
    && node.readiness.Some? == manifest
    && (manifest ==> ProperBinding(w, node.readiness.value) && node.readiness.value.path == node.storyRef + READINESS_FILE)
    && |node.dependsOn| <= MAX_DEPENDS_ON && Distinct(node.dependsOn)
    && forall d :: 0 <= d < |node.dependsOn| ==> IsNodeId(node.dependsOn[d])
  }

  ghost predicate GoodNodes(w: World, nodes: seq<GoalNode>, manifest: bool) {
    && 1 <= |nodes| <= MAX_NODES && (forall i :: 0 <= i < |nodes| ==> GoodNode(w, nodes[i], manifest))
    && Distinct(Refs(nodes)) && EdgeCount(nodes) <= MAX_TOTAL_DEPENDS_ON_EDGES
    && EdgesAreGood(Shapes(nodes), Known(Shapes(nodes))) && Sortable(Shapes(nodes))
  }

  lemma DistinctIsKeys(texts: seq<Text>)
    ensures Distinct(texts) <==> DistinctKeys(texts, UnitKey)
  {
    if DistinctKeys(texts, UnitKey) {
      forall i, j | 0 <= i < j < |texts| ensures texts[i] != texts[j] {
        assert UnitKey(texts[i]) != UnitKey(texts[j]);
      }
    }
  }

  lemma DependenciesTidy(ids: seq<Text>, sorted: bool)
    ensures ProperDependencies(Sort(ids, UnitKey), sorted) <==> Distinct(ids)
    ensures |Sort(ids, UnitKey)| == |ids| && ToSet(Sort(ids, UnitKey)) == ToSet(ids)
  {
    hide Sort, StepwiseSorted, Distinct, DistinctKeys;
    SortKeeps(ids, UnitKey);
    SortedMembers(ids, UnitKey);
    DistinctIsKeys(ids);
    DistinctIsKeys(Sort(ids, UnitKey));
    SortDistinct(ids, UnitKey);
    SortedIffDistinct(ids, UnitKey);
  }

  lemma EachInSet(a: seq<Text>, b: seq<Text>)
    requires ToSet(a) == ToSet(b)
    ensures (forall d :: 0 <= d < |a| ==> IsNodeId(a[d])) <==> (forall d :: 0 <= d < |b| ==> IsNodeId(b[d]))
  {
    hide IsNodeId;
    forall d | 0 <= d < |a| ensures a[d] in b {
      assert a[d] in ToSet(b);
    }
    forall d | 0 <= d < |b| ensures b[d] in a {
      assert b[d] in ToSet(a);
    }
  }

  lemma TidyIsProper(w: World, node: GoalNode, manifest: bool)
    ensures ProperNode(w, TidyNode(node), manifest) <==> GoodNode(w, node, manifest)
  {
    hide Sort, IsNodeId, IsRepoPath, ProperBinding, ProperDependencies, Distinct, ToSet;
    DependenciesTidy(node.dependsOn, manifest);
    EachInSet(Sort(node.dependsOn, UnitKey), node.dependsOn);
  }

  lemma InSorted(nodes: seq<GoalNode>)
    ensures forall node :: node in SortedNodes(nodes) <==> node in TidyNodes(nodes)
    ensures |SortedNodes(nodes)| == |nodes|
  {
    hide Sort;
    SortedMembers(TidyNodes(nodes), RefKey);
    SortKeeps(TidyNodes(nodes), RefKey);
  }

  lemma AllTidyAreProper(w: World, nodes: seq<GoalNode>, manifest: bool)
    ensures (forall i :: 0 <= i < |SortedNodes(nodes)| ==> ProperNode(w, SortedNodes(nodes)[i], manifest)) <==>
      forall i :: 0 <= i < |nodes| ==> GoodNode(w, nodes[i], manifest)
  {
    hide ProperNode, GoodNode, SortedNodes, TidyNode;
    var sorted, tidy := SortedNodes(nodes), TidyNodes(nodes);
    InSorted(nodes);
    forall i | 0 <= i < |nodes| ensures ProperNode(w, tidy[i], manifest) <==> GoodNode(w, nodes[i], manifest) {
      TidyIsProper(w, nodes[i], manifest);
    }
    forall i | 0 <= i < |tidy| ensures tidy[i] in sorted {
      assert tidy[i] in tidy;
    }
    forall i | 0 <= i < |sorted| ensures sorted[i] in tidy {
      assert sorted[i] in sorted;
    }
  }

  lemma RefsAreKeys(nodes: seq<GoalNode>)
    ensures Distinct(Refs(nodes)) <==> DistinctKeys(nodes, RefKey)
  {
    if DistinctKeys(nodes, RefKey) {
      forall i, j | 0 <= i < j < |nodes| ensures Refs(nodes)[i] != Refs(nodes)[j] {
        assert RefKey(nodes[i]) != RefKey(nodes[j]);
      }
    }
    if Distinct(Refs(nodes)) {
      forall i, j | 0 <= i < j < |nodes| ensures RefKey(nodes[i]) != RefKey(nodes[j]) {
        assert Refs(nodes)[i] != Refs(nodes)[j];
      }
    }
  }

  lemma TidyKeys(nodes: seq<GoalNode>)
    ensures DistinctKeys(TidyNodes(nodes), RefKey) <==> DistinctKeys(nodes, RefKey)
  {
    assert forall i :: 0 <= i < |nodes| ==> RefKey(TidyNodes(nodes)[i]) == RefKey(nodes[i]);
  }

  lemma SortedRefs(nodes: seq<GoalNode>)
    ensures Distinct(Refs(SortedNodes(nodes))) <==> Distinct(Refs(nodes))
    ensures StepwiseSorted(SortedNodes(nodes), RefKey) <==> Distinct(Refs(nodes))
  {
    hide Sort, Distinct, DistinctKeys, StepwiseSorted, Refs, TidyNodes;
    RefsAreKeys(SortedNodes(nodes));
    RefsAreKeys(nodes);
    TidyKeys(nodes);
    SortDistinct(TidyNodes(nodes), RefKey);
    SortedIffDistinct(TidyNodes(nodes), RefKey);
  }

  // ---------------------------------------------------------------------
  // The same relation
  // ---------------------------------------------------------------------

  ghost predicate SameRelation(a: seq<TopologyNode>, b: seq<TopologyNode>) {
    Known(a) == Known(b) && forall ref, dependency :: DependsOn(a, ref, dependency) <==> DependsOn(b, ref, dependency)
  }

  lemma EdgesByRelation(nodes: seq<TopologyNode>, known: set<Text>)
    ensures EdgesAreGood(nodes, known) <==>
      forall ref, dependency :: DependsOn(nodes, ref, dependency) ==> dependency in known && dependency != ref
  {
    if forall ref, dependency :: DependsOn(nodes, ref, dependency) ==> dependency in known && dependency != ref {
      forall i, d | 0 <= i < |nodes| && 0 <= d < |nodes[i].dependsOn|
        ensures nodes[i].dependsOn[d] in known && nodes[i].dependsOn[d] != nodes[i].nodeRef
      {
        assert NodeDependsOn(nodes[i], nodes[i].nodeRef, nodes[i].dependsOn[d]);
        assert DependsOn(nodes, nodes[i].nodeRef, nodes[i].dependsOn[d]);
      }
    }
    if EdgesAreGood(nodes, known) {
      forall ref, dependency | DependsOn(nodes, ref, dependency) ensures dependency in known && dependency != ref {
        var i :| 0 <= i < |nodes| && NodeDependsOn(nodes[i], ref, dependency);
      }
    }
  }

  lemma RelationDecides(a: seq<TopologyNode>, b: seq<TopologyNode>)
    requires SameRelation(a, b)
    ensures EdgesAreGood(a, Known(a)) <==> EdgesAreGood(b, Known(b))
    ensures Sortable(a) <==> Sortable(b)
  {
    hide EdgesAreGood, Known, DependsOn;
    EdgesByRelation(a, Known(a));
    EdgesByRelation(b, Known(b));
    if order :| TopologicalOrder(a, order) {
      assert TopologicalOrder(b, order);
    }
    if order :| TopologicalOrder(b, order) {
      assert TopologicalOrder(a, order);
    }
  }

  ghost predicate HasEdge(nodes: seq<GoalNode>, ref: Text, dependency: Text) {
    exists node :: node in nodes && node.nodeRef == ref && dependency in node.dependsOn
  }

  lemma RelationOfNodes(nodes: seq<GoalNode>, ref: Text, dependency: Text)
    ensures DependsOn(Shapes(nodes), ref, dependency) <==> HasEdge(nodes, ref, dependency)
  {
    if DependsOn(Shapes(nodes), ref, dependency) {
      var i :| 0 <= i < |nodes| && NodeDependsOn(Shapes(nodes)[i], ref, dependency);
      assert nodes[i] in nodes;
    }
    if HasEdge(nodes, ref, dependency) {
      var node :| node in nodes && node.nodeRef == ref && dependency in node.dependsOn;
      var i :| 0 <= i < |nodes| && nodes[i] == node;
      assert NodeDependsOn(Shapes(nodes)[i], ref, dependency);
    }
  }

  lemma KnownOfNodes(nodes: seq<GoalNode>)
    ensures Known(Shapes(nodes)) == ToSet(Refs(nodes))
  {
    assert forall i :: 0 <= i < |nodes| ==> Shapes(nodes)[i].nodeRef == Refs(nodes)[i];
  }

  lemma SortedEdge(nodes: seq<GoalNode>, ref: Text, dependency: Text)
    ensures HasEdge(SortedNodes(nodes), ref, dependency) <==> HasEdge(nodes, ref, dependency)
  {
    hide SortedNodes, Sort, ToSet;
    InSorted(nodes);
    if HasEdge(nodes, ref, dependency) {
      var node :| node in nodes && node.nodeRef == ref && dependency in node.dependsOn;
      var i :| 0 <= i < |nodes| && nodes[i] == node;
      TidyHas(node, dependency);
      assert TidyNodes(nodes)[i] in SortedNodes(nodes);
    }
    if HasEdge(SortedNodes(nodes), ref, dependency) {
      var node :| node in SortedNodes(nodes) && node.nodeRef == ref && dependency in node.dependsOn;
      var i :| 0 <= i < |nodes| && TidyNodes(nodes)[i] == node;
      TidyHas(nodes[i], dependency);
      assert nodes[i] in nodes;
    }
  }

  lemma TidyHas(node: GoalNode, dependency: Text)
    ensures dependency in TidyNode(node).dependsOn <==> dependency in node.dependsOn
  {
    hide Sort;
    SortedMembers(node.dependsOn, UnitKey);
  }

  lemma SortedKnown(nodes: seq<GoalNode>)
    ensures ToSet(Refs(SortedNodes(nodes))) == ToSet(Refs(nodes))
  {
    hide SortedNodes, Sort;
    InSorted(nodes);
    var sorted := SortedNodes(nodes);
    forall ref ensures ref in Refs(sorted) <==> ref in Refs(nodes) {
      if ref in Refs(nodes) {
        var i :| 0 <= i < |nodes| && Refs(nodes)[i] == ref;
        assert TidyNodes(nodes)[i] in sorted;
        var k :| 0 <= k < |sorted| && sorted[k] == TidyNodes(nodes)[i];
        assert Refs(sorted)[k] == ref;
      }
      if ref in Refs(sorted) {
        var k :| 0 <= k < |sorted| && Refs(sorted)[k] == ref;
        assert sorted[k] in TidyNodes(nodes);
        var i :| 0 <= i < |nodes| && TidyNodes(nodes)[i] == sorted[k];
        assert Refs(nodes)[i] == ref;
      }
    }
  }

  lemma SortedRelation(nodes: seq<GoalNode>)
    ensures SameRelation(Shapes(SortedNodes(nodes)), Shapes(nodes))
  {
    hide SortedNodes, Shapes, Known, DependsOn, HasEdge, Refs;
    KnownOfNodes(SortedNodes(nodes));
    KnownOfNodes(nodes);
    SortedKnown(nodes);
    forall ref, dependency ensures DependsOn(Shapes(SortedNodes(nodes)), ref, dependency) <==> DependsOn(Shapes(nodes), ref, dependency) {
      RelationOfNodes(SortedNodes(nodes), ref, dependency);
      RelationOfNodes(nodes, ref, dependency);
      SortedEdge(nodes, ref, dependency);
    }
  }

  lemma EdgesSorted(nodes: seq<GoalNode>)
    ensures EdgeCount(SortedNodes(nodes)) == EdgeCount(nodes)
  {
    hide EdgeCount, Sort, TidyNodes;
    SortEdges(TidyNodes(nodes));
    TidyEdges(nodes);
  }

  /** Sorting turns good nodes, and only those, into proper ones. */
  lemma SortedAreProper(w: World, nodes: seq<GoalNode>, manifest: bool)
    ensures ProperNodes(w, SortedNodes(nodes), manifest) <==> GoodNodes(w, nodes, manifest)
  {
    hide SortedNodes, ProperNode, GoodNode, Distinct, StepwiseSorted, Refs, EdgeCount, EdgesAreGood, Sortable, Known, Fault, Shapes,
      SameRelation;
    var sorted := SortedNodes(nodes);
    InSorted(nodes);
    AllTidyAreProper(w, nodes, manifest);
    SortedRefs(nodes);
    EdgesSorted(nodes);
    TopologyMeaning(Shapes(sorted));
    SortedRelation(nodes);
    RelationDecides(Shapes(sorted), Shapes(nodes));
  }

  lemma SortedGraph(declared: seq<GoalNode>, nodes: seq<GoalNode>)
    ensures SameGraph(declared, SortedNodes(nodes)) <==> SameGraph(declared, nodes)
  {
    hide SortedNodes, SameNode, Refs;
    SortedKnown(nodes);
    InSorted(nodes);
    var sorted, tidy := SortedNodes(nodes), TidyNodes(nodes);
    forall a: GoalNode, k | 0 <= k < |nodes| ensures SameNode(a, tidy[k]) <==> SameNode(a, nodes[k]) {
      SameTidy(a, nodes[k]);
    }
    if SameGraph(declared, nodes) {
      forall i, j | 0 <= i < |declared| && 0 <= j < |sorted| && declared[i].nodeRef == sorted[j].nodeRef
        ensures SameNode(declared[i], sorted[j])
      {
        assert sorted[j] in tidy;
        var k :| 0 <= k < |tidy| && tidy[k] == sorted[j];
        assert tidy[k] == TidyNode(nodes[k]);
      }
    }
    if SameGraph(declared, sorted) {
      forall i, k | 0 <= i < |declared| && 0 <= k < |nodes| && declared[i].nodeRef == nodes[k].nodeRef
        ensures SameNode(declared[i], nodes[k])
      {
        assert tidy[k] in sorted;
        var j :| 0 <= j < |sorted| && sorted[j] == tidy[k];
      }
    }
  }

  lemma SameTidy(a: GoalNode, node: GoalNode)
    ensures SameNode(a, TidyNode(node)) <==> SameNode(a, node)
  {
    hide Sort;
    SortedMembers(node.dependsOn, UnitKey);
    assert ToSet(Sort(node.dependsOn, UnitKey)) == ToSet(node.dependsOn);
  }

  // ---------------------------------------------------------------------
  // Reading back what was written
  // ---------------------------------------------------------------------

  /** No value lies deeper than this. */
  predicate Shallow(json: Json, limit: nat) {
    match json
    case JsonArray(items) => forall i :: 0 <= i < |items| ==> limit > 0 && Shallow(items[i], limit - 1)
    case JsonObject(fields) => forall field <- fields :: limit > 0 && Shallow(fields[field], limit - 1)
    case _ => true
  }

  /** JSON that is written can be read within its depth, and digests look like digests. */
  ghost predicate Sound(w: World) {
    && (forall json, limit :: Shallow(json, limit) ==> ReadJson(w, w.write(json), limit) == Some(json))
    && (forall bytes :: IsSha256(w.hash(bytes)))
  }

  lemma TextsAreShallow(texts: seq<Text>, limit: nat)
    ensures Shallow(JsonArray(TextsJson(texts)), limit + 1)
  {
  }

  lemma BindingIsShallow(binding: Binding, limit: nat)
    ensures Shallow(BindingJson(binding), limit + 1)
  {
  }

  lemma BindingsAreShallow(bindings: seq<Binding>, limit: nat)
    ensures Shallow(JsonArray(BindingsJson(bindings)), limit + 2)
  {
    hide BindingJson;
    forall i | 0 <= i < |bindings| ensures Shallow(BindingsJson(bindings)[i], limit + 1) {
      BindingIsShallow(bindings[i], limit);
    }
  }

  lemma NodeIsShallow(node: GoalNode, limit: nat)
    ensures Shallow(NodeJson(node), limit + 2)
  {
    hide BindingJson, TextsJson;
    TextsAreShallow(node.dependsOn, limit);
    if node.readiness.Some? {
      BindingIsShallow(node.readiness.value, limit);
    }
  }

  lemma NodesAreShallow(nodes: seq<GoalNode>, limit: nat)
    ensures Shallow(JsonArray(NodesJson(nodes)), limit + 3)
  {
    hide NodeJson;
    forall i | 0 <= i < |nodes| ensures Shallow(NodesJson(nodes)[i], limit + 2) {
      NodeIsShallow(nodes[i], limit);
    }
  }

  lemma PartsAreShallow(id: Text, revision: Option<int>, index: CoverageIndex, reviewer: Text, limit: nat)
    ensures Shallow(PlanJson(id, revision), limit + 1) && Shallow(CoverageJson(index), limit + 1)
    ensures Shallow(ReviewerJson(reviewer), limit + 1)
  {
  }

  lemma DeclarationIsShallow(id: Text, revision: Option<int>, nodes: seq<GoalNode>, limit: nat)
    ensures Shallow(DeclarationJson(id, revision, nodes), limit + 4)
  {
    hide NodesJson, PlanJson;
    NodesAreShallow(nodes, limit);
    PartsAreShallow(id, revision, CoverageIndex([], []), [], limit + 2);
  }

  lemma ManifestIsShallow(id: Text, revision: Option<int>, declaration: Binding, nodes: seq<GoalNode>, sources: seq<Binding>,
                          index: CoverageIndex, limit: nat)
    ensures Shallow(ManifestJson(id, revision, declaration, nodes, sources, index), limit + 4)
  {
    hide NodesJson, BindingsJson, BindingJson, PlanJson, CoverageJson;
    PartsAreShallow(id, revision, index, [], limit + 2);
    NodesAreShallow(nodes, limit);
    BindingsAreShallow(sources, limit + 1);
    BindingIsShallow(declaration, limit + 2);
  }

  lemma ReviewIsShallow(r: Review, limit: nat)
    ensures Shallow(ReviewJson(r), limit + 4)
  {
    hide BindingsJson, CoverageJson, ReviewerJson;
    PartsAreShallow([], None, r.coverageIndex, r.reviewer, limit + 2);
    BindingsAreShallow(r.reviewedSources, limit + 1);
  }

  // ---------------------------------------------------------------------
  // Declarations
  // ---------------------------------------------------------------------

  ghost predicate GoodDeclarationInput(w: World, input: DeclarationInput) {
    && input.revision.Some? && ProperPlan(PlanIdentity(input.planId, input.revision.value))
    && GoodNodes(w, PlainNodes(w, input.nodes), false)
    && |w.write(ExportedDeclaration(w, input))| <= MAX_DECLARATION_BYTES
  }

  lemma GoodDependenciesDiffer(w: World, nodes: seq<ExportNode>, manifest: bool)
    requires GoodNodes(w, PlainNodes(w, nodes), manifest)
    ensures DependenciesDiffer(nodes)
  {
    hide IsNodeId, IsRepoPath, ProperBinding, Distinct, Refs, EdgesAreGood, Sortable, Shapes, EdgeCount;
    forall i | 0 <= i < |nodes| ensures Distinct(nodes[i].dependsOn) {
      assert GoodNode(w, PlainNodes(w, nodes)[i], manifest);
    }
  }

  lemma SortedReadiness(plain: seq<GoalNode>, manifest: bool)
    requires forall i :: 0 <= i < |plain| ==> plain[i].readiness.Some? == manifest
    ensures forall k :: 0 <= k < |SortedNodes(plain)| ==> SortedNodes(plain)[k].readiness.Some? == manifest
  {
    hide SortedNodes, Sort;
    InSorted(plain);
    var sorted := SortedNodes(plain);
    forall k | 0 <= k < |sorted| ensures sorted[k].readiness.Some? == manifest {
      assert sorted[k] in TidyNodes(plain);
      var i :| 0 <= i < |plain| && TidyNodes(plain)[i] == sorted[k];
    }
  }

  /** The Declaration exporter accepts exactly the good inputs. */
  lemma DeclarationExportMeaning(w: World, input: DeclarationInput)
    requires Sound(w) && forall i :: 0 <= i < |input.nodes| ==> input.nodes[i].readiness.None?
    ensures DeclarationExport(w, input).Accepted? <==> GoodDeclarationInput(w, input)
  {
    hide PlainNodes, SortedNodes, GoodNodes, ProperNodes, DependenciesDiffer, ProperPlan, DeclarationShape, DeclarationJson, Sound, Shallow;
    var plain := PlainNodes(w, input.nodes);
    var nodes := SortedNodes(plain);
    SortedReadiness(plain, false);
    DeclarationRoundTrip(w, input.planId, input.revision, nodes);
    SortedAreProper(w, plain, false);
    DeclarationReadBack(w, input.planId, input.revision, nodes);
    if GoodNodes(w, plain, false) {
      GoodDependenciesDiffer(w, input.nodes, false);
    }
  }

  lemma DeclarationReadBack(w: World, id: Text, revision: Option<int>, nodes: seq<GoalNode>)
    requires Sound(w)
    ensures var json := DeclarationJson(id, revision, nodes);
      DeclarationOf(w, w.write(json)) ==
        if |w.write(json)| <= MAX_DECLARATION_BYTES then DeclarationShape(w, json) else Rejected(MalformedArtifact, None)
  {
    hide DeclarationShape, NodesJson, Shallow;
    var json := DeclarationJson(id, revision, nodes);
    DeclarationIsShallow(id, revision, nodes, 28);
    assert SupportedSchema(json);
  }

  // ---------------------------------------------------------------------
  // Manifests
  // ---------------------------------------------------------------------

  /** Whoever lists a path twice lists the same bytes. */
  ghost predicate Consistent(sources: seq<SourceBytes>) {
    forall i, j :: 0 <= i < |sources| && 0 <= j < |sources| && sources[i].path == sources[j].path ==> sources[i] == sources[j]
  }

  lemma {:induction false} FactsMeaning(sources: seq<SourceBytes>)
    requires Consistent(sources)
    ensures forall i :: 0 <= i < |sources| ==> sources[i].path in FactsOf(sources) && FactsOf(sources)[sources[i].path] == sources[i].bytes
    ensures forall path :: path in FactsOf(sources) ==> SourceBytes(path, FactsOf(sources)[path]) in sources
  {
    if sources != [] {
      var front, last := sources[..|sources| - 1], sources[|sources| - 1];
      FactsMeaning(front);
      forall i | 0 <= i < |sources| ensures sources[i].path in FactsOf(sources) && FactsOf(sources)[sources[i].path] == sources[i].bytes {
        if i < |front| {
          assert sources[i] == front[i];
        }
      }
      forall path | path in FactsOf(sources) ensures SourceBytes(path, FactsOf(sources)[path]) in sources {
        if path != last.path {
          assert SourceBytes(path, FactsOf(front)[path]) in front;
        }
      }
    }
  }

  lemma {:induction false} ReadinessIsListed(nodes: seq<ExportNode>, i: nat)
    requires i < |nodes| && nodes[i].readiness.Some?
    ensures nodes[i].readiness.value in ReadinessSources(nodes)
    decreases |nodes|
  {
    if i < |nodes| - 1 {
      ReadinessIsListed(nodes[..|nodes| - 1], i);
    }
  }

  /** Whatever the input lists is bound in the facts. */
  lemma ListedIsBound(w: World, sources: seq<SourceBytes>, source: SourceBytes)
    requires Consistent(sources) && source in sources
    ensures Bound(w, BindingFor(w, source), FactsOf(sources)) && FactsOf(sources)[source.path] == source.bytes
  {
    hide FactsOf;
    FactsMeaning(sources);
  }

  lemma ReviewedAreBound(w: World, input: ManifestInput)
    requires Consistent(AllSources(input))
    ensures EachBound(w, Sort(BindingsFor(w, input.reviewedSources), PathKey), FactsOf(AllSources(input)))
  {
    hide Sort, FactsOf, Bound, Consistent;
    var bindings := BindingsFor(w, input.reviewedSources);
    var sorted := Sort(bindings, PathKey);
    SortedMembers(bindings, PathKey);
    forall k | 0 <= k < |sorted| ensures Bound(w, sorted[k], FactsOf(AllSources(input))) {
      assert sorted[k] in bindings;
      var i :| 0 <= i < |bindings| && bindings[i] == sorted[k];
      assert input.reviewedSources[i] in AllSources(input);
      ListedIsBound(w, AllSources(input), input.reviewedSources[i]);
    }
  }

  lemma ReadinessIsBound(w: World, input: ManifestInput)
    requires Consistent(AllSources(input))
    ensures ReadinessBound(w, SortedNodes(PlainNodes(w, input.nodes)), FactsOf(AllSources(input)))
  {
    hide Sort, FactsOf, Bound, SortedNodes, Consistent;
    var plain := PlainNodes(w, input.nodes);
    var sorted := SortedNodes(plain);
    InSorted(plain);
    forall k | 0 <= k < |sorted| && sorted[k].readiness.Some? ensures Bound(w, sorted[k].readiness.value, FactsOf(AllSources(input))) {
      assert sorted[k] in TidyNodes(plain);
      var i :| 0 <= i < |plain| && TidyNodes(plain)[i] == sorted[k];
      ReadinessIsListed(input.nodes, i);
      ListedIsBound(w, AllSources(input), input.nodes[i].readiness.value);
    }
  }

  ghost predicate GoodSources(w: World, bindings: seq<Binding>) {
    && |bindings| <= MAX_REVIEWED_SOURCES && DistinctKeys(bindings, PathKey)
    && forall i :: 0 <= i < |bindings| ==> ProperBinding(w, bindings[i])
  }

  /** The Declaration the input names, of which the nodes must be the same graph. */
  ghost predicate SameDeclaration(w: World, input: ManifestInput) {
    var declared := DeclarationOf(w, input.declaration.bytes);
    && declared.Accepted? && input.revision.Some?
    && declared.value.plan == PlanIdentity(input.planId, input.revision.value)
    && SameGraph(declared.value.nodes, PlainNodes(w, input.nodes))
  }

  /** Stated limits, differing references and encoded paths, sidecar paths, an acyclic graph, the Declaration's own graph, and size. */
  ghost predicate GoodManifestInput(w: World, input: ManifestInput) {
    && input.revision.Some? && ProperPlan(PlanIdentity(input.planId, input.revision.value))
    && IsRepoPath(w, input.declaration.path) && SameDeclaration(w, input)
    && GoodNodes(w, PlainNodes(w, input.nodes), true)
    && GoodSources(w, BindingsFor(w, input.reviewedSources))
    && ProperCoverage(w, input.coverageIndex)
    && |w.write(ExportedManifest(w, input))| <= MAX_ARTIFACT_BYTES
  }

  lemma GoodPathsDiffer(w: World, sources: seq<SourceBytes>)
    requires DistinctKeys(BindingsFor(w, sources), PathKey)
    ensures PathsDiffer(sources)
  {
    hide Encode;
    var bindings := BindingsFor(w, sources);
    forall i, j | 0 <= i < j < |sources| ensures sources[i].path != sources[j].path {
      assert PathKey(bindings[i]) != PathKey(bindings[j]);
    }
  }

  lemma SortedSourcesAreProper(w: World, bindings: seq<Binding>)
    ensures ProperSources(w, Sort(bindings, PathKey)) <==> GoodSources(w, bindings)
  {
    hide Sort, ProperBinding, StepwiseSorted, DistinctKeys;
    var sorted := Sort(bindings, PathKey);
    SortKeeps(bindings, PathKey);
    SortedMembers(bindings, PathKey);
    SortedIffDistinct(bindings, PathKey);
    forall i | 0 <= i < |bindings| ensures bindings[i] in sorted {
      assert bindings[i] in bindings;
    }
    forall i | 0 <= i < |sorted| ensures sorted[i] in bindings {
      assert sorted[i] in sorted;
    }
  }

  lemma ManifestReadBack(w: World, id: Text, revision: Option<int>, declaration: Binding, nodes: seq<GoalNode>,
                         sources: seq<Binding>, index: CoverageIndex)
    requires Sound(w)
    ensures var json := ManifestJson(id, revision, declaration, nodes, sources, index);
      ManifestStructure(w, w.write(json)) ==
        if |w.write(json)| <= MAX_ARTIFACT_BYTES then ManifestShape(w, json) else Rejected(MalformedArtifact, None)
  {
    hide ManifestShape, NodesJson, Shallow, BindingJson, BindingsJson, PlanJson, CoverageJson;
    var json := ManifestJson(id, revision, declaration, nodes, sources, index);
    ManifestIsShallow(id, revision, declaration, nodes, sources, index, 124);
    assert SupportedSchema(json);
  }

  /** A proper Manifest whose sources are all there is accepted if the Declaration has its graph. */
  lemma BoundMeaning(w: World, manifest: Manifest, sources: Sources)
    requires ProperManifest(w, manifest) && Bound(w, manifest.declaration, sources)
    requires EachBound(w, manifest.reviewedSources, sources) && ReadinessBound(w, manifest.nodes, sources)
    ensures BoundManifest(w, manifest, sources).Accepted? <==>
      var declared := DeclarationOf(w, sources[manifest.declaration.path]);
      declared.Accepted? && declared.value.plan == manifest.plan && SameGraph(declared.value.nodes, manifest.nodes)
  {
    hide DeclarationOf, Matches, SameGraph, Clean, EachBound, ReadinessBound, ProperNodes, ProperPlan, ProperSources,
      ProperBinding, ProperCoverage, Sortable, EdgesAreGood;
    var declared := DeclarationOf(w, sources[manifest.declaration.path]);
    if declared.Accepted? {
      DeclarationIsProper(w, sources[manifest.declaration.path]);
      ProperIsClean(w, manifest.nodes, true);
      ProperIsClean(w, declared.value.nodes, false);
      MatchMeaning(declared.value, manifest);
    }
  }

  /** The Manifest exporter accepts exactly the good inputs. */
  lemma ManifestExportMeaning(w: World, input: ManifestInput)
    requires Sound(w) && Consistent(AllSources(input))
    requires forall i :: 0 <= i < |input.nodes| ==> input.nodes[i].readiness.Some?
    ensures ManifestExport(w, input).Accepted? <==> GoodManifestInput(w, input)
  {
    hide PlainNodes, SortedNodes, GoodNodes, ProperNodes, DependenciesDiffer, PathsDiffer, ProperPlan, ManifestShape, ManifestJson,
      Sound, Shallow, BoundManifest, FactsOf, AllSources, Sort, BindingsFor, ProperSources, GoodSources, ProperCoverage,
      DeclarationOf, SameGraph, EachBound, ReadinessBound, Consistent, ManifestStructure, IsSha256, IsRepoPath;
    var plain := PlainNodes(w, input.nodes);
    var nodes := SortedNodes(plain);
    var bindings := BindingsFor(w, input.reviewedSources);
    var sources, declaration, facts := Sort(bindings, PathKey), BindingFor(w, input.declaration), FactsOf(AllSources(input));
    SortedReadiness(plain, true);
    ManifestRoundTrip(w, input.planId, input.revision, declaration, nodes, sources, input.coverageIndex);
    ManifestReadBack(w, input.planId, input.revision, declaration, nodes, sources, input.coverageIndex);
    SortedAreProper(w, plain, true);
    SortedSourcesAreProper(w, bindings);
    DeclarationIsListed(w, input);
    ReviewedAreBound(w, input);
    ReadinessIsBound(w, input);
    GoodIsAccepted(w, input);
    if ManifestStructure(w, w.write(ExportedManifest(w, input))).Accepted? {
      BoundMeaning(w, ManifestStructure(w, w.write(ExportedManifest(w, input))).value, facts);
      var declared := DeclarationOf(w, input.declaration.bytes);
      if declared.Accepted? {
        SortedGraph(declared.value.nodes, plain);
      }
    }
  }

  lemma DeclarationIsListed(w: World, input: ManifestInput)
    requires Sound(w) && Consistent(AllSources(input))
    ensures Bound(w, BindingFor(w, input.declaration), FactsOf(AllSources(input)))
    ensures FactsOf(AllSources(input))[input.declaration.path] == input.declaration.bytes
    ensures ProperBinding(w, BindingFor(w, input.declaration)) <==> IsRepoPath(w, input.declaration.path)
  {
    hide FactsOf, Bound, Consistent, IsSha256, IsRepoPath;
    assert AllSources(input)[0] == input.declaration;
    ListedIsBound(w, AllSources(input), input.declaration);
  }

  /** Good inputs pass the checks made before anything is written. */
  lemma GoodIsAccepted(w: World, input: ManifestInput)
    ensures GoodNodes(w, PlainNodes(w, input.nodes), true) ==> DependenciesDiffer(input.nodes)
    ensures GoodSources(w, BindingsFor(w, input.reviewedSources)) ==> PathsDiffer(input.reviewedSources)
  {
    hide GoodNodes, PlainNodes, BindingsFor, DependenciesDiffer, PathsDiffer, DistinctKeys, ProperBinding;
    if GoodNodes(w, PlainNodes(w, input.nodes), true) {
      GoodDependenciesDiffer(w, input.nodes, true);
    }
    if GoodSources(w, BindingsFor(w, input.reviewedSources)) {
      GoodPathsDiffer(w, input.reviewedSources);
    }
  }
}
