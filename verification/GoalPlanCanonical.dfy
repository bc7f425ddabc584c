/**
 The exported Manifest does not depend on the order of its input, and a Review can be exported
 for every valid Manifest (packages/core/src/goal-plan-artifacts.ts:1878-1900, 1970-2137).
 */
module GoalPlanCanonical {
  import opened Foundations
  import opened TextOrder
  import opened Topology
  import opened GoalPlanModel
  import opened GoalPlanReaders
  import opened GoalPlanWriting
  import opened GoalPlanBinding
  import opened GoalPlanExport
  import opened GoalPlanComplete

  // ---------------------------------------------------------------------
  // The same input in another order
  // ---------------------------------------------------------------------

  predicate Twin(a: ExportNode, b: ExportNode) {
    a.nodeRef == b.nodeRef && a.storyRef == b.storyRef && a.readiness == b.readiness && multiset(a.dependsOn) == multiset(b.dependsOn)
  }

  /** Every node of the first list is in the second, perhaps with its dependencies in another order. */
  predicate Covers(a: seq<ExportNode>, b: seq<ExportNode>) {
    forall i :: 0 <= i < |a| ==> exists j :: 0 <= j < |b| && Twin(a[i], b[j])
  }

  ghost predicate Reordered(a: ManifestInput, b: ManifestInput) {
    && a.planId == b.planId && a.revision == b.revision && a.declaration == b.declaration && a.coverageIndex == b.coverageIndex
    && |a.nodes| == |b.nodes| && Covers(a.nodes, b.nodes) && Covers(b.nodes, a.nodes)
    && |a.reviewedSources| == |b.reviewedSources| && SameMembers(a.reviewedSources, b.reviewedSources)
  }

  lemma MembersDistinct<T(!new)>(a: seq<T>, b: seq<T>, key: T -> seq<nat>)
    requires DistinctKeys(a, key) && |a| == |b| && SameMembers(a, b)
    ensures DistinctKeys(b, key)
  {
    assert ToSet(a) == ToSet(b);
    assert Distinct(a);
    UniqueIffDistinct(a);
    UniqueIffDistinct(b);
    forall i, j | 0 <= i < j < |b| ensures key(b[i]) != key(b[j]) {
      assert b[i] in a && b[j] in a && b[i] != b[j];
      var k :| 0 <= k < |a| && a[k] == b[i];
      var l :| 0 <= l < |a| && a[l] == b[j];
    }
  }

  /** Sorting lists with the same entries and differing keys ends in the same list. */
  lemma SortSame<T(!new)>(a: seq<T>, b: seq<T>, key: T -> seq<nat>)
    requires DistinctKeys(a, key) && |a| == |b| && SameMembers(a, b)
    ensures Sort(a, key) == Sort(b, key)
  {
    hide DistinctKeys, Sort, StrictlySorted;
    MembersDistinct(a, b, key);
    SortSorts(a, key);
    SortSorts(b, key);
    SortedMembers(a, key);
    SortedMembers(b, key);
    SortedAreEqual(Sort(a, key), Sort(b, key), key);
  }

  lemma TwinsTidy(w: World, a: ExportNode, b: ExportNode)
    requires Twin(a, b) && Distinct(a.dependsOn)
    ensures TidyNode(PlainNode(w, a)) == TidyNode(PlainNode(w, b))
  {
    hide Sort;
    DistinctIsKeys(a.dependsOn);
    TwinDistinct(a.dependsOn, b.dependsOn);
    DistinctIsKeys(b.dependsOn);
    SortIsCanonical(a.dependsOn, b.dependsOn, UnitKey);
  }

  lemma SameBag<T(!new)>(a: seq<T>, b: seq<T>)
    requires multiset(a) == multiset(b)
    ensures SameMembers(a, b) && |a| == |b|
  {
    forall x ensures x in a <==> x in b {
      assert x in multiset(a) <==> x in multiset(b);
    }
    assert |multiset(a)| == |a| && |multiset(b)| == |b|;
  }

  lemma TwinDistinct(a: seq<Text>, b: seq<Text>)
    requires multiset(a) == multiset(b) && Distinct(a)
    ensures Distinct(b)
  {
    hide Distinct, SameMembers;
    SameBag(a, b);
    DistinctIsKeys(a);
    MembersDistinct(a, b, UnitKey);
    DistinctIsKeys(b);
  }

  lemma CoveredTidy(w: World, a: seq<ExportNode>, b: seq<ExportNode>)
    requires Covers(a, b) && DependenciesDiffer(a)
    ensures forall node :: node in TidyNodes(PlainNodes(w, a)) ==> node in TidyNodes(PlainNodes(w, b))
  {
    hide Sort, Twin, TidyNode, PlainNode, Distinct;
    var tidyA, tidyB := TidyNodes(PlainNodes(w, a)), TidyNodes(PlainNodes(w, b));
    forall node | node in tidyA ensures node in tidyB {
      var i :| 0 <= i < |tidyA| && tidyA[i] == node;
      var j :| 0 <= j < |b| && Twin(a[i], b[j]);
      TwinsTidy(w, a[i], b[j]);
      assert tidyB[j] == node;
    }
  }

  lemma CoveredDiffer(a: seq<ExportNode>, b: seq<ExportNode>)
    requires Covers(b, a) && DependenciesDiffer(a)
    ensures DependenciesDiffer(b)
  {
    hide Distinct;
    forall j | 0 <= j < |b| ensures Distinct(b[j].dependsOn) {
      var i :| 0 <= i < |a| && Twin(b[j], a[i]);
      TwinDistinct(a[i].dependsOn, b[j].dependsOn);
    }
  }

  lemma SortedNodesSame(w: World, a: ManifestInput, b: ManifestInput)
    requires Reordered(a, b) && DependenciesDiffer(a.nodes) && Distinct(Refs(PlainNodes(w, a.nodes)))
    ensures SortedNodes(PlainNodes(w, a.nodes)) == SortedNodes(PlainNodes(w, b.nodes))
  {
    hide Covers, DependenciesDiffer, Sort, Distinct, DistinctKeys, Refs;
    CoveredDiffer(a.nodes, b.nodes);
    CoveredTidy(w, a.nodes, b.nodes);
    CoveredTidy(w, b.nodes, a.nodes);
    RefsAreKeys(PlainNodes(w, a.nodes));
    TidyKeys(PlainNodes(w, a.nodes));
    SortSame(TidyNodes(PlainNodes(w, a.nodes)), TidyNodes(PlainNodes(w, b.nodes)), RefKey);
  }

  lemma BindingsMembers(w: World, a: seq<SourceBytes>, b: seq<SourceBytes>)
    requires forall x :: x in a ==> x in b
    ensures forall x :: x in BindingsFor(w, a) ==> x in BindingsFor(w, b)
  {
    forall x | x in BindingsFor(w, a) ensures x in BindingsFor(w, b) {
      var i :| 0 <= i < |a| && BindingsFor(w, a)[i] == x;
      assert a[i] in b;
      var j :| 0 <= j < |b| && b[j] == a[i];
      assert BindingsFor(w, b)[j] == x;
    }
  }

  lemma SortedSourcesSame(w: World, a: ManifestInput, b: ManifestInput)
    requires Reordered(a, b) && DistinctKeys(BindingsFor(w, a.reviewedSources), PathKey)
    ensures Sort(BindingsFor(w, a.reviewedSources), PathKey) == Sort(BindingsFor(w, b.reviewedSources), PathKey)
    ensures PathsDiffer(b.reviewedSources)
  {
    hide Sort, DistinctKeys, PathsDiffer, Covers;
    BindingsMembers(w, a.reviewedSources, b.reviewedSources);
    BindingsMembers(w, b.reviewedSources, a.reviewedSources);
    var bindingsA, bindingsB := BindingsFor(w, a.reviewedSources), BindingsFor(w, b.reviewedSources);
    SortSame(bindingsA, bindingsB, PathKey);
    MembersDistinct(bindingsA, bindingsB, PathKey);
    GoodPathsDiffer(w, b.reviewedSources);
  }

  lemma {:induction false} ReadinessMeaning(nodes: seq<ExportNode>, source: SourceBytes)
    ensures source in ReadinessSources(nodes) <==> exists i :: 0 <= i < |nodes| && nodes[i].readiness == Some(source)
  {
    if nodes != [] {
      var front, last := nodes[..|nodes| - 1], nodes[|nodes| - 1];
      ReadinessMeaning(front, source);
      if i :| 0 <= i < |nodes| && nodes[i].readiness == Some(source) {
        if i < |front| {
          assert front[i].readiness == Some(source);
        }
      }
      if i :| 0 <= i < |front| && front[i].readiness == Some(source) {
        assert nodes[i].readiness == Some(source);
      }
      if last.readiness == Some(source) {
        assert nodes[|nodes| - 1].readiness == Some(source);
      }
    }
  }

  lemma ReadinessCovered(a: seq<ExportNode>, b: seq<ExportNode>, source: SourceBytes)
    requires Covers(a, b) && source in ReadinessSources(a)
    ensures source in ReadinessSources(b)
  {
    ReadinessMeaning(a, source);
    ReadinessMeaning(b, source);
    var i :| 0 <= i < |a| && a[i].readiness == Some(source);
    var j :| 0 <= j < |b| && Twin(a[i], b[j]);
    assert b[j].readiness == Some(source);
  }

  lemma FactsSame(a: seq<SourceBytes>, b: seq<SourceBytes>)
    requires Consistent(a) && SameMembers(a, b)
    ensures Consistent(b) && FactsOf(a) == FactsOf(b)
  {
    hide FactsOf;
    forall i, j | 0 <= i < |b| && 0 <= j < |b| && b[i].path == b[j].path ensures b[i] == b[j] {
      assert b[i] in a && b[j] in a;
    }
    FactsMeaning(a);
    FactsMeaning(b);
    FactsWithin(a, b);
    FactsWithin(b, a);
  }

  lemma FactsWithin(a: seq<SourceBytes>, b: seq<SourceBytes>)
    requires Consistent(a) && Consistent(b) && SameMembers(a, b)
    ensures forall path :: path in FactsOf(a) ==> path in FactsOf(b) && FactsOf(b)[path] == FactsOf(a)[path]
  {
    hide FactsOf, Consistent;
    FactsMeaning(a);
    FactsMeaning(b);
    forall path | path in FactsOf(a) ensures path in FactsOf(b) && FactsOf(b)[path] == FactsOf(a)[path] {
      var source := SourceBytes(path, FactsOf(a)[path]);
      assert source in b;
      var j :| 0 <= j < |b| && b[j] == source;
    }
  }

  lemma SourcesSame(a: ManifestInput, b: ManifestInput)
    requires Reordered(a, b)
    ensures SameMembers(AllSources(a), AllSources(b))
  {
    hide Covers, ReadinessSources;
    forall source ensures source in AllSources(a) <==> source in AllSources(b) {
      assert source in AllSources(a) <==>
        source == a.declaration || source in a.reviewedSources || source in ReadinessSources(a.nodes);
      assert source in AllSources(b) <==>
        source == b.declaration || source in b.reviewedSources || source in ReadinessSources(b.nodes);
      if source in ReadinessSources(a.nodes) {
        ReadinessCovered(a.nodes, b.nodes, source);
      }
      if source in ReadinessSources(b.nodes) {
        ReadinessCovered(b.nodes, a.nodes, source);
      }
    }
  }

  /** Reordering nodes, dependencies or reviewed sources leaves the exported bytes as they are. */
  lemma ManifestIsCanonical(w: World, a: ManifestInput, b: ManifestInput)
    requires Sound(w) && Consistent(AllSources(a)) && Reordered(a, b)
    requires forall i :: 0 <= i < |a.nodes| ==> a.nodes[i].readiness.Some?
    requires ManifestExport(w, a).Accepted?
    ensures ManifestExport(w, b) == ManifestExport(w, a)
  {
    hide Sound, Consistent, Covers, SameMembers, DependenciesDiffer, PathsDiffer, SortedNodes, PlainNodes, Sort, BindingsFor,
      FactsOf, AllSources, ManifestOf, ManifestJson, SameDeclaration, ProperPlan, IsRepoPath, ProperCoverage, Distinct, Refs,
      GoodNode, DistinctKeys, EdgesAreGood, Sortable, EdgeCount, Shapes, ProperBinding;
    ManifestExportMeaning(w, a);
    CoveredDiffer(a.nodes, b.nodes);
    SortedNodesSame(w, a, b);
    SortedSourcesSame(w, a, b);
    SourcesSame(a, b);
    FactsSame(AllSources(a), AllSources(b));
  }

  // ---------------------------------------------------------------------
  // Reviews
  // ---------------------------------------------------------------------

  function ReviewFor(w: World, manifestBytes: Bytes, manifest: Manifest, reviewId: Text, reviewer: Text, reviewedAt: Text): Review {
    Review(reviewId, w.hash(manifestBytes), manifest.reviewedSources, manifest.coverageIndex, reviewer, reviewedAt)
  }

  ghost function ReviewExport(w: World, manifestBytes: Bytes, reviewId: Text, reviewer: Text, reviewedAt: Text,
                              sources: Option<Sources>): Outcome<Bytes> {
    if |manifestBytes| > MAX_ARTIFACT_BYTES || sources.None? then Reject(MalformedArtifact)
    else
      match ManifestOf(w, manifestBytes, sources)
      case Rejected(category, _) =>
        Rejected(if category == DigestMismatch then DigestMismatch else ApprovalBindingMismatch, Some(category))
      case Accepted(manifest) =>
        var bytes := w.write(ReviewJson(ReviewFor(w, manifestBytes, manifest, reviewId, reviewer, reviewedAt)));
        match ReviewOf(w, bytes, manifestBytes, sources)
        case Rejected(category, _) => Reject(category)
        case Accepted(_) => Accepted(bytes)
  }

  method ExportReview(w: World, manifestBytes: Bytes, reviewId: Text, reviewer: Text, reviewedAt: Text, sources: Option<Sources>)
    returns (r: Outcome<Bytes>)
    ensures r == ReviewExport(w, manifestBytes, reviewId, reviewer, reviewedAt, sources)
  {
    hide ManifestOf, ReviewOf, ReviewJson;
    if |manifestBytes| > MAX_ARTIFACT_BYTES || sources.None? {
      return Reject(MalformedArtifact);
    }
    var manifest := ValidateManifest(w, manifestBytes, sources);
    if manifest.Rejected? {
      return Rejected(if manifest.category == DigestMismatch then DigestMismatch else ApprovalBindingMismatch, Some(manifest.category));
    }
    var bytes := w.write(ReviewJson(ReviewFor(w, manifestBytes, manifest.value, reviewId, reviewer, reviewedAt)));
    var validation := ValidateReview(w, bytes, manifestBytes, sources);
    r := if validation.Accepted? then Accepted(bytes) else Reject(validation.category);
  }

  lemma ReviewReadBack(w: World, r: Review)
    requires Sound(w)
    ensures ReviewStructure(w, w.write(ReviewJson(r))) ==
      if |w.write(ReviewJson(r))| <= MAX_ARTIFACT_BYTES && ProperReview(w, r) then Accepted(r) else Rejected(MalformedArtifact, None)
  {
    hide ReviewShape, Shallow, BindingsJson, CoverageJson, ReviewerJson, ProperReview;
    ReviewIsShallow(r, 124);
    ReviewRoundTrip(w, r);
    assert SupportedSchema(ReviewJson(r));
  }

  /** For a valid Manifest only the reviewer's own fields and the size can be wrong. */
  lemma ReviewExportMeaning(w: World, manifestBytes: Bytes, reviewId: Text, reviewer: Text, reviewedAt: Text, sources: Sources)
    requires Sound(w) && ManifestOf(w, manifestBytes, Some(sources)).Accepted?
    ensures var review := ReviewFor(w, manifestBytes, ManifestOf(w, manifestBytes, Some(sources)).value, reviewId, reviewer, reviewedAt);
      var bytes := w.write(ReviewJson(review));
      && ReviewExport(w, manifestBytes, reviewId, reviewer, reviewedAt, Some(sources)) ==
           (if w.reviewIdPattern(reviewId) && w.reviewerName(reviewer) && w.realDateTime(reviewedAt) && |bytes| <= MAX_ARTIFACT_BYTES
            then Accepted(bytes) else Reject(MalformedArtifact))
      && (|bytes| <= MAX_ARTIFACT_BYTES && w.reviewIdPattern(reviewId) && w.reviewerName(reviewer) && w.realDateTime(reviewedAt) ==>
            ReviewOf(w, bytes, manifestBytes, Some(sources)) == Accepted(review))
  {
    hide ManifestOf, ReviewStructure, ReviewJson, ProperSources, ProperCoverage, SameBindings, Sound, ProperNodes, ProperPlan,
      ProperBinding, IsSha256;
    var manifest := ManifestOf(w, manifestBytes, Some(sources)).value;
    var review := ReviewFor(w, manifestBytes, manifest, reviewId, reviewer, reviewedAt);
    ValidIsProper(w, manifestBytes, sources);
    ReviewReadBack(w, review);
    DigestIsGood(w, manifestBytes);
    SameAsItself(w, manifest.reviewedSources);
  }

  lemma DigestIsGood(w: World, bytes: Bytes)
    requires Sound(w)
    ensures IsSha256(w.hash(bytes))
  {
  }

  lemma SameAsItself(w: World, bindings: seq<Binding>)
    requires ProperSources(w, bindings)
    ensures SameBindings(bindings, bindings)
  {
    hide StepwiseSorted, SameBindings, ProperBinding;
    SameBindingsMeaning(bindings, bindings);
  }

  lemma ValidIsProper(w: World, bytes: Bytes, sources: Sources)
    requires ManifestOf(w, bytes, Some(sources)).Accepted?
    ensures ProperManifest(w, ManifestOf(w, bytes, Some(sources)).value) && |bytes| <= MAX_ARTIFACT_BYTES
  {
    hide ProperManifest, ManifestShape, Matches, EachBound, ReadinessBound, Bound, DeclarationOf;
    ManifestIsProper(w, bytes);
  }
}
