/**
 What an accepted Plan Coverage Review is bound to
 (packages/core/src/goal-plan-artifacts.ts:1376-1526, 1707-1810).
 */
module GoalPlanBinding {
  import opened Foundations
  import opened TextOrder
  import opened Topology
  import opened GoalPlanModel
  import opened GoalPlanReaders
  import opened GoalPlanWriting

  // ---------------------------------------------------------------------
  // The same graph
  // ---------------------------------------------------------------------

  predicate SameNode(a: GoalNode, b: GoalNode) {
    a.storyRef == b.storyRef && ToSet(a.dependsOn) == ToSet(b.dependsOn)
  }

  /** The same references, each with the same story and the same set of dependencies. */
  ghost predicate SameGraph(a: seq<GoalNode>, b: seq<GoalNode>) {
    && ToSet(Refs(a)) == ToSet(Refs(b))
    && forall i, j :: 0 <= i < |a| && 0 <= j < |b| && a[i].nodeRef == b[j].nodeRef ==> SameNode(a[i], b[j])
  }

  lemma {:induction false} DeclaredMeaning(nodes: seq<GoalNode>, ref: Text)
    ensures Declared(nodes, ref).None? <==> ref !in Refs(nodes)
    ensures Declared(nodes, ref).Some? ==> exists i :: 0 <= i < |nodes| && nodes[i] == Declared(nodes, ref).value && nodes[i].nodeRef == ref
  {
    if nodes != [] {
      var front, last := nodes[..|nodes| - 1], nodes[|nodes| - 1];
      DeclaredMeaning(front, ref);
      assert Refs(nodes) == Refs(front) + [last.nodeRef];
      if last.nodeRef != ref && Declared(front, ref).Some? {
        var i :| 0 <= i < |front| && front[i] == Declared(front, ref).value && front[i].nodeRef == ref;
        assert nodes[i] == Declared(nodes, ref).value;
      }
    }
  }

  /** With differing references there is only one node to find. */
  lemma DeclaredIs(nodes: seq<GoalNode>, i: nat)
    requires i < |nodes| && Distinct(Refs(nodes))
    ensures Declared(nodes, nodes[i].nodeRef) == Some(nodes[i])
  {
    hide Declared, Refs;
    var ref := nodes[i].nodeRef;
    DeclaredMeaning(nodes, ref);
    assert Refs(nodes)[i] == ref;
    assert ref in Refs(nodes);
    var j :| 0 <= j < |nodes| && nodes[j] == Declared(nodes, ref).value && nodes[j].nodeRef == ref;
    assert Refs(nodes)[j] == Refs(nodes)[i];
    assert i == j;
  }

  lemma SameSetMeaning(a: seq<Text>, b: seq<Text>)
    requires Distinct(a) && Distinct(b)
    ensures SameStringSet(a, b) <==> ToSet(a) == ToSet(b)
  {
    UniqueIffDistinct(a);
    UniqueIffDistinct(b);
    if SameStringSet(a, b) {
      assert ToSet(b) <= ToSet(a);
      SubsetOfSameSize(ToSet(b), ToSet(a));
    }
    if ToSet(a) == ToSet(b) {
      forall i | 0 <= i < |b| ensures b[i] in a {
        assert b[i] in ToSet(b);
      }
    }
  }

  /** Every list of references is one without repetition. */
  ghost predicate Clean(nodes: seq<GoalNode>) {
    Distinct(Refs(nodes)) && forall i :: 0 <= i < |nodes| ==> Distinct(nodes[i].dependsOn)
  }

  lemma NodeMatchesMeaning(declared: seq<GoalNode>, node: GoalNode, i: nat)
    requires Clean(declared) && Distinct(node.dependsOn) && i < |declared| && declared[i].nodeRef == node.nodeRef
    ensures NodeMatches(declared, node) <==> SameNode(declared[i], node)
  {
    DeclaredIs(declared, i);
    SameSetMeaning(declared[i].dependsOn, node.dependsOn);
  }

  /** The match is a bijection of nodes that keeps stories and dependencies. */
  lemma MatchMeaning(d: Declaration, m: Manifest)
    requires Clean(d.nodes) && Clean(m.nodes)
    ensures Matches(d, m) <==> d.plan == m.plan && SameGraph(d.nodes, m.nodes)
  {
    hide SameNode, NodeMatches, Distinct, Refs;
    UniqueIffDistinct(Refs(d.nodes));
    UniqueIffDistinct(Refs(m.nodes));
    forall i, j | 0 <= i < |d.nodes| && 0 <= j < |m.nodes| && d.nodes[i].nodeRef == m.nodes[j].nodeRef
      ensures NodeMatches(d.nodes, m.nodes[j]) <==> SameNode(d.nodes[i], m.nodes[j])
    {
      NodeMatchesMeaning(d.nodes, m.nodes[j], i);
    }
    if Matches(d, m) {
      RefsMatched(d.nodes, m.nodes);
      SubsetOfSameSize(ToSet(Refs(m.nodes)), ToSet(Refs(d.nodes)));
    }
    if d.plan == m.plan && SameGraph(d.nodes, m.nodes) {
      forall j | 0 <= j < |m.nodes| ensures NodeMatches(d.nodes, m.nodes[j]) {
        var i := RefFound(d.nodes, m.nodes, j);
      }
    }
  }

  lemma RefsMatched(declared: seq<GoalNode>, nodes: seq<GoalNode>)
    requires forall j :: 0 <= j < |nodes| ==> NodeMatches(declared, nodes[j])
    ensures ToSet(Refs(nodes)) <= ToSet(Refs(declared))
  {
    forall ref | ref in Refs(nodes) ensures ref in Refs(declared) {
      var j :| 0 <= j < |Refs(nodes)| && Refs(nodes)[j] == ref;
      assert NodeMatches(declared, nodes[j]);
      DeclaredMeaning(declared, ref);
    }
  }

  lemma RefFound(a: seq<GoalNode>, b: seq<GoalNode>, j: nat) returns (i: nat)
    requires ToSet(Refs(a)) == ToSet(Refs(b)) && j < |b|
    ensures i < |a| && a[i].nodeRef == b[j].nodeRef
  {
    assert Refs(b)[j] in ToSet(Refs(b));
    assert b[j].nodeRef in Refs(a);
    i :| 0 <= i < |Refs(a)| && Refs(a)[i] == b[j].nodeRef;
  }

  // ---------------------------------------------------------------------
  // The same sources
  // ---------------------------------------------------------------------

  lemma {:induction false} PathDigestMeaning(bindings: seq<Binding>, path: Text, digest: Text)
    requires PathDigest(bindings, path) == Some(digest)
    ensures Binding(path, digest) in bindings
  {
    if bindings[|bindings| - 1].path != path {
      PathDigestMeaning(bindings[..|bindings| - 1], path, digest);
    }
  }

  lemma {:induction false} PathDigestOf(bindings: seq<Binding>, i: nat)
    requires StepwiseSorted(bindings, PathKey) && i < |bindings|
    ensures PathDigest(bindings, bindings[i].path) == Some(bindings[i].sha256)
    decreases |bindings|
  {
    hide Encode, Before, StepwiseSorted;
    var last := |bindings| - 1;
    if i < last {
      Stepwise(bindings, PathKey);
      NotBeforeItself(PathKey(bindings[i]));
      assert Before(PathKey(bindings[i]), PathKey(bindings[last]));
      SortedPrefix(bindings, PathKey, last);
      PathDigestOf(bindings[..last], i);
    }
  }

  /** Equal lengths and equal look-ups: for sorted lists that is equality. */
  lemma SameBindingsMeaning(a: seq<Binding>, b: seq<Binding>)
    requires StepwiseSorted(a, PathKey) && StepwiseSorted(b, PathKey)
    ensures SameBindings(a, b) <==> a == b
  {
    hide PathDigest, StepwiseSorted, Encode, Before;
    if a == b {
      forall i | 0 <= i < |a| ensures PathDigest(b, a[i].path) == Some(a[i].sha256) {
        PathDigestOf(b, i);
      }
    }
    if SameBindings(a, b) {
      forall i | 0 <= i < |a| ensures a[i] in b {
        PathDigestMeaning(b, a[i].path, a[i].sha256);
      }
      Stepwise(a, PathKey);
      Stepwise(b, PathKey);
      SortedKeysDiffer(a, PathKey);
      SortedKeysDiffer(b, PathKey);
      UniqueIffDistinct(a);
      UniqueIffDistinct(b);
      assert ToSet(a) <= ToSet(b);
      SubsetOfSameSize(ToSet(a), ToSet(b));
      forall x ensures x in a <==> x in b {
        assert x in ToSet(a) <==> x in ToSet(b);
      }
      SortedAreEqual(a, b, PathKey);
    }
  }

  // ---------------------------------------------------------------------
  // The chain
  // ---------------------------------------------------------------------

  /** Everything a Manifest names is there as it says, and its Declaration has the same graph. */
  ghost predicate ManifestBinds(w: World, manifestBytes: Bytes, sources: Sources, manifest: Manifest, declaration: Declaration) {
    && ManifestStructure(w, manifestBytes) == Accepted(manifest)
    && Bound(w, manifest.declaration, sources)
    && DeclarationOf(w, sources[manifest.declaration.path]) == Accepted(declaration)
    && declaration.plan == manifest.plan && SameGraph(declaration.nodes, manifest.nodes)
    && EachBound(w, manifest.reviewedSources, sources) && ReadinessBound(w, manifest.nodes, sources)
  }

  ghost predicate ReviewBinds(w: World, reviewBytes: Bytes, manifestBytes: Bytes, sources: Sources,
                              review: Review, manifest: Manifest, declaration: Declaration) {
    && ReviewStructure(w, reviewBytes) == Accepted(review)
    && review.manifestSha256 == w.hash(manifestBytes)
    && review.reviewedSources == manifest.reviewedSources && review.coverageIndex == manifest.coverageIndex
    && ManifestBinds(w, manifestBytes, sources, manifest, declaration)
  }

  lemma ProperIsClean(w: World, nodes: seq<GoalNode>, manifest: bool)
    requires ProperNodes(w, nodes, manifest)
    ensures Clean(nodes) && Sortable(Shapes(nodes)) && EdgesAreGood(Shapes(nodes), Known(Shapes(nodes)))
  {
    hide IsNodeId, IsRepoPath, ProperBinding, StepwiseSorted, EdgeCount, Sortable, EdgesAreGood, Fault;
    TopologyMeaning(Shapes(nodes));
    forall i | 0 <= i < |nodes| ensures Distinct(nodes[i].dependsOn) {
      assert ProperNode(w, nodes[i], manifest);
    }
  }

  lemma ManifestMeaning(w: World, bytes: Bytes, sources: Sources, manifest: Manifest)
    ensures ManifestOf(w, bytes, Some(sources)) == Accepted(manifest) <==>
      exists declaration :: ManifestBinds(w, bytes, sources, manifest, declaration)
  {
    hide ManifestStructure, DeclarationOf, Matches, SameGraph, Clean, EachBound, ReadinessBound, ProperNodes, ProperPlan,
      ProperSources, ProperBinding, ProperCoverage;
    if ManifestStructure(w, bytes) == Accepted(manifest) && Bound(w, manifest.declaration, sources)
       && DeclarationOf(w, sources[manifest.declaration.path]).Accepted?
    {
      var declaration := DeclarationOf(w, sources[manifest.declaration.path]).value;
      ManifestIsProper(w, bytes);
      DeclarationIsProper(w, sources[manifest.declaration.path]);
      ProperIsClean(w, manifest.nodes, true);
      ProperIsClean(w, declaration.nodes, false);
      MatchMeaning(declaration, manifest);
      if ManifestOf(w, bytes, Some(sources)) == Accepted(manifest) {
        assert ManifestBinds(w, bytes, sources, manifest, declaration);
      }
    }
  }

  /** A Review is accepted exactly when the whole chain holds. */
  lemma ReviewBindsEverything(w: World, reviewBytes: Bytes, manifestBytes: Bytes, sources: Sources, review: Review)
    ensures ReviewOf(w, reviewBytes, manifestBytes, Some(sources)) == Accepted(review) <==>
      exists manifest, declaration :: ReviewBinds(w, reviewBytes, manifestBytes, sources, review, manifest, declaration)
  {
    hide ReviewStructure, ManifestOf, ManifestStructure, ManifestBinds, SameBindings, StepwiseSorted, ProperNodes, ProperPlan,
      ProperBinding, ProperCoverage, IsSha256;
    if ReviewOf(w, reviewBytes, manifestBytes, Some(sources)) == Accepted(review) {
      var manifest := ManifestOf(w, manifestBytes, Some(sources)).value;
      ManifestMeaning(w, manifestBytes, sources, manifest);
      var declaration :| ManifestBinds(w, manifestBytes, sources, manifest, declaration);
      ChainEnds(w, reviewBytes, manifestBytes, sources, review, manifest, declaration);
      assert ReviewBinds(w, reviewBytes, manifestBytes, sources, review, manifest, declaration);
    }
    if manifest, declaration :| ReviewBinds(w, reviewBytes, manifestBytes, sources, review, manifest, declaration) {
      ManifestMeaning(w, manifestBytes, sources, manifest);
      ChainEnds(w, reviewBytes, manifestBytes, sources, review, manifest, declaration);
      BoundIsSmall(w, manifestBytes, sources, manifest, declaration);
    }
  }

  lemma ChainEnds(w: World, reviewBytes: Bytes, manifestBytes: Bytes, sources: Sources,
                  review: Review, manifest: Manifest, declaration: Declaration)
    requires ReviewStructure(w, reviewBytes) == Accepted(review) && ManifestBinds(w, manifestBytes, sources, manifest, declaration)
    ensures SameBindings(review.reviewedSources, manifest.reviewedSources) <==> review.reviewedSources == manifest.reviewedSources
  {
    hide ReviewStructure, ManifestStructure, SameBindings, StepwiseSorted, ProperNodes, ProperPlan, ProperBinding, ProperCoverage,
      IsSha256, DeclarationOf, SameGraph, EachBound, ReadinessBound, Bound;
    ReviewIsProper(w, reviewBytes);
    ManifestIsProper(w, manifestBytes);
    SameBindingsMeaning(review.reviewedSources, manifest.reviewedSources);
  }

  lemma BoundIsSmall(w: World, manifestBytes: Bytes, sources: Sources, manifest: Manifest, declaration: Declaration)
    requires ManifestBinds(w, manifestBytes, sources, manifest, declaration)
    ensures |manifestBytes| <= MAX_ARTIFACT_BYTES
  {
    hide ManifestShape, DeclarationOf, SameGraph, EachBound, ReadinessBound, Bound;
  }

  /** Both graphs behind an accepted Review can be put in order, and every dependency is a node. */
  lemma ReviewedGraphsAreSound(w: World, manifestBytes: Bytes, sources: Sources, manifest: Manifest, declaration: Declaration)
    requires ManifestBinds(w, manifestBytes, sources, manifest, declaration)
    ensures Sortable(Shapes(manifest.nodes)) && EdgesAreGood(Shapes(manifest.nodes), Known(Shapes(manifest.nodes)))
    ensures Sortable(Shapes(declaration.nodes)) && EdgesAreGood(Shapes(declaration.nodes), Known(Shapes(declaration.nodes)))
    ensures Clean(manifest.nodes) && Clean(declaration.nodes) && |manifest.nodes| == |declaration.nodes|
  {
    hide ManifestStructure, DeclarationOf, SameNode, EachBound, ReadinessBound, ProperNodes, ProperPlan,
      ProperSources, ProperBinding, ProperCoverage, Sortable, EdgesAreGood, Shapes, Distinct;
    ManifestIsProper(w, manifestBytes);
    DeclarationIsProper(w, sources[manifest.declaration.path]);
    ProperIsClean(w, manifest.nodes, true);
    ProperIsClean(w, declaration.nodes, false);
    UniqueIffDistinct(Refs(manifest.nodes));
    UniqueIffDistinct(Refs(declaration.nodes));
  }
}
