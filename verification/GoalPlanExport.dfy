/**
 The exporters (packages/core/src/goal-plan-artifacts.ts:1861-2042): canonical, and never
 rejected by their own validation for a good input.
 */
module GoalPlanExport {
  import opened Foundations
  import opened TextOrder
  import opened GoalPlanModel
  import opened GoalPlanReaders
  import opened GoalPlanWriting

  datatype SourceBytes = SourceBytes(path: Text, bytes: Bytes)

  /** A node to export; it has a readiness contract in a Manifest. */
  datatype ExportNode = ExportNode(nodeRef: Text, storyRef: Text, readiness: Option<SourceBytes>, dependsOn: seq<Text>)

  /** A revision that is not an integer is `None`. */
  datatype DeclarationInput = DeclarationInput(planId: Text, revision: Option<int>, nodes: seq<ExportNode>)

  datatype ManifestInput = ManifestInput(planId: Text, revision: Option<int>, declaration: SourceBytes, nodes: seq<ExportNode>,
                                         reviewedSources: seq<SourceBytes>, coverageIndex: CoverageIndex)

  // ---------------------------------------------------------------------
  // What is exported
  // ---------------------------------------------------------------------

  function BindingFor(w: World, source: SourceBytes): Binding {
    Binding(source.path, w.hash(source.bytes))
  }

  /** A node with its dependencies in the order they came in. */
  function PlainNode(w: World, node: ExportNode): GoalNode {
    GoalNode(node.nodeRef, node.storyRef,
             if node.readiness.Some? then Some(BindingFor(w, node.readiness.value)) else None, node.dependsOn)
  }

  function PlainNodes(w: World, nodes: seq<ExportNode>): (plain: seq<GoalNode>)
    ensures |plain| == |nodes| && forall i :: 0 <= i < |nodes| ==> plain[i] == PlainNode(w, nodes[i])
  {
    if nodes == [] then [] else PlainNodes(w, nodes[..|nodes| - 1]) + [PlainNode(w, nodes[|nodes| - 1])]
  }

  function TidyNode(node: GoalNode): GoalNode {
    node.(dependsOn := Sort(node.dependsOn, UnitKey))
  }

  function TidyNodes(nodes: seq<GoalNode>): (tidy: seq<GoalNode>)
    ensures |tidy| == |nodes| && forall i :: 0 <= i < |nodes| ==> tidy[i] == TidyNode(nodes[i])
  {
    if nodes == [] then [] else TidyNodes(nodes[..|nodes| - 1]) + [TidyNode(nodes[|nodes| - 1])]
  }

  function SortedNodes(nodes: seq<GoalNode>): seq<GoalNode> {
    Sort(TidyNodes(nodes), RefKey)
  }

  function BindingsFor(w: World, sources: seq<SourceBytes>): (bindings: seq<Binding>)
    ensures |bindings| == |sources| && forall i :: 0 <= i < |sources| ==> bindings[i] == BindingFor(w, sources[i])
  {
    if sources == [] then [] else BindingsFor(w, sources[..|sources| - 1]) + [BindingFor(w, sources[|sources| - 1])]
  }

  ghost predicate DependenciesDiffer(nodes: seq<ExportNode>) {
    forall i :: 0 <= i < |nodes| ==> Distinct(nodes[i].dependsOn)
  }

  ghost predicate PathsDiffer(sources: seq<SourceBytes>) {
    forall i, j :: 0 <= i < j < |sources| ==> sources[i].path != sources[j].path
  }

  /** The sources of the nodes that have a readiness contract, in node order. */
  function ReadinessSources(nodes: seq<ExportNode>): seq<SourceBytes> {
    if nodes == [] then []
    else ReadinessSources(nodes[..|nodes| - 1]) +
         if nodes[|nodes| - 1].readiness.Some? then [nodes[|nodes| - 1].readiness.value] else []
  }

  function AllSources(input: ManifestInput): seq<SourceBytes> {
    [input.declaration] + input.reviewedSources + ReadinessSources(input.nodes)
  }

  /** Setting one path after the other: the last bytes stay. */
  function FactsOf(sources: seq<SourceBytes>): Sources {
    if sources == [] then map[]
    else FactsOf(sources[..|sources| - 1])[sources[|sources| - 1].path := sources[|sources| - 1].bytes]
  }

  function ExportedDeclaration(w: World, input: DeclarationInput): Json {
    DeclarationJson(input.planId, input.revision, SortedNodes(PlainNodes(w, input.nodes)))
  }

  function ExportedManifest(w: World, input: ManifestInput): Json {
    ManifestJson(input.planId, input.revision, BindingFor(w, input.declaration), SortedNodes(PlainNodes(w, input.nodes)),
                 Sort(BindingsFor(w, input.reviewedSources), PathKey), input.coverageIndex)
  }

  ghost function DeclarationExport(w: World, input: DeclarationInput): Outcome<Bytes> {
    if !DependenciesDiffer(input.nodes) then Reject(MalformedArtifact)
    else
      var bytes := w.write(ExportedDeclaration(w, input));
      match DeclarationOf(w, bytes)
      case Rejected(category, _) => Reject(category)
      case Accepted(_) => Accepted(bytes)
  }

  ghost function ManifestExport(w: World, input: ManifestInput): Outcome<Bytes> {
    if !PathsDiffer(input.reviewedSources) || !DependenciesDiffer(input.nodes) then Reject(MalformedArtifact)
    else
      var bytes := w.write(ExportedManifest(w, input));
      match ManifestOf(w, bytes, Some(FactsOf(AllSources(input))))
      case Rejected(category, _) => Reject(category)
      case Accepted(_) => Accepted(bytes)
  }

  // ---------------------------------------------------------------------
  // The exporters
  // ---------------------------------------------------------------------

  method SortedReviewedSources(w: World, sources: seq<SourceBytes>) returns (bindings: Option<seq<Binding>>)
    ensures bindings == if PathsDiffer(sources) then Some(Sort(BindingsFor(w, sources), PathKey)) else None
  {
    hide Sort;
    var seen: set<Text> := {};
    var mapped: seq<Binding> := [];
    for i := 0 to |sources|
      invariant PathsDiffer(sources[..i]) && mapped == BindingsFor(w, sources[..i])
      invariant forall path :: path in seen <==> exists j :: 0 <= j < i && sources[j].path == path
    {
      if sources[i].path in seen {
        return None;
      }
      assert sources[..i + 1][..i] == sources[..i];
      seen := seen + {sources[i].path};
      mapped := mapped + [BindingFor(w, sources[i])];
    }
    assert sources[..|sources|] == sources;
    bindings := Some(Sort(mapped, PathKey));
  }

  method SortedDependsOn(dependsOn: seq<Text>) returns (sorted: Option<seq<Text>>)
    ensures sorted == if Distinct(dependsOn) then Some(Sort(dependsOn, UnitKey)) else None
  {
    UniqueIffDistinct(dependsOn);
    if |ToSet(dependsOn)| != |dependsOn| {
      return None;
    }
    sorted := Some(Sort(dependsOn, UnitKey));
  }

  method ExportedNodes(w: World, nodes: seq<ExportNode>) returns (sorted: Option<seq<GoalNode>>)
    ensures sorted == if DependenciesDiffer(nodes) then Some(SortedNodes(PlainNodes(w, nodes))) else None
  {
    hide Sort, Distinct;
    var mapped: seq<GoalNode> := [];
    for i := 0 to |nodes|
      invariant DependenciesDiffer(nodes[..i]) && |mapped| == i
      invariant forall j :: 0 <= j < i ==> mapped[j] == TidyNode(PlainNode(w, nodes[j]))
    {
      var dependsOn := SortedDependsOn(nodes[i].dependsOn);
      if dependsOn.None? {
        return None;
      }
      mapped := mapped + [PlainNode(w, nodes[i]).(dependsOn := dependsOn.value)];
    }
    assert nodes[..|nodes|] == nodes;
    assert mapped == TidyNodes(PlainNodes(w, nodes));
    sorted := Some(Sort(mapped, RefKey));
  }

  method ExportDeclaration(w: World, input: DeclarationInput) returns (r: Outcome<Bytes>)
    ensures r == DeclarationExport(w, input)
  {
    hide DependenciesDiffer, SortedNodes, PlainNodes, DeclarationOf, DeclarationJson;
    var nodes := ExportedNodes(w, input.nodes);
    if nodes.None? {
      return Reject(MalformedArtifact);
    }
    var bytes := w.write(DeclarationJson(input.planId, input.revision, nodes.value));
    var validation := ValidateDeclaration(w, bytes);
    r := if validation.Accepted? then Accepted(bytes) else Reject(validation.category);
  }

  method CollectFacts(sources: seq<SourceBytes>) returns (facts: Sources)
    ensures facts == FactsOf(sources)
  {
    facts := map[];
    for i := 0 to |sources|
      invariant facts == FactsOf(sources[..i])
    {
      assert sources[..i + 1][..i] == sources[..i];
      facts := facts[sources[i].path := sources[i].bytes];
    }
    assert sources[..|sources|] == sources;
  }

  method ExportManifest(w: World, input: ManifestInput) returns (r: Outcome<Bytes>)
    ensures r == ManifestExport(w, input)
  {
    hide DependenciesDiffer, PathsDiffer, SortedNodes, PlainNodes, ManifestOf, ManifestJson, FactsOf, AllSources, Sort, BindingsFor;
    var reviewedSources := SortedReviewedSources(w, input.reviewedSources);
    if reviewedSources.None? {
      return Reject(MalformedArtifact);
    }
    var nodes := ExportedNodes(w, input.nodes);
    if nodes.None? {
      return Reject(MalformedArtifact);
    }
    var bytes := w.write(ManifestJson(input.planId, input.revision, BindingFor(w, input.declaration), nodes.value,
                                      reviewedSources.value, input.coverageIndex));
    var facts := CollectFacts(AllSources(input));
    var validation := ValidateManifest(w, bytes, Some(facts));
    r := if validation.Accepted? then Accepted(bytes) else Reject(validation.category);
  }

  // ---------------------------------------------------------------------
  // What sorting keeps
  // ---------------------------------------------------------------------

  /** Two lists with the same entries, at whatever places. */
  ghost predicate SameMembers<T(!new)>(a: seq<T>, b: seq<T>) {
    forall x :: x in a <==> x in b
  }

  /** No entry has this key. */
  ghost predicate NoneHas<T>(s: seq<T>, key: T -> seq<nat>, k: seq<nat>) {
    forall i :: 0 <= i < |s| ==> key(s[i]) != k
  }

  lemma NoneHasCons<T>(x: T, s: seq<T>, key: T -> seq<nat>, k: seq<nat>)
    ensures NoneHas([x] + s, key, k) <==> key(x) != k && NoneHas(s, key, k)
  {
    var all := [x] + s;
    assert all[0] == x && forall i :: 0 <= i < |s| ==> all[i + 1] == s[i];
  }

  lemma {:induction false} NoneHasInsert<T>(x: T, s: seq<T>, key: T -> seq<nat>, k: seq<nat>)
    ensures NoneHas(Insert(x, s, key), key, k) <==> key(x) != k && NoneHas(s, key, k)
  {
    hide NoneHas, Before;
    NoneHasCons(x, s, key, k);
    if s == [] || Before(key(x), key(s[0])) {
    } else {
      NoneHasInsert(x, s[1..], key, k);
      NoneHasCons(s[0], Insert(x, s[1..], key), key, k);
      NoneHasCons(s[0], s[1..], key, k);
      assert s == [s[0]] + s[1..];
    }
  }

  lemma {:induction false} NoneHasSort<T>(s: seq<T>, key: T -> seq<nat>, k: seq<nat>)
    ensures NoneHas(Sort(s, key), key, k) <==> NoneHas(s, key, k)
  {
    if s != [] {
      NoneHasSort(s[..|s| - 1], key, k);
      NoneHasInsert(s[|s| - 1], Sort(s[..|s| - 1], key), key, k);
    }
  }

  lemma ConsDistinct<T>(x: T, s: seq<T>, key: T -> seq<nat>)
    ensures DistinctKeys([x] + s, key) <==> DistinctKeys(s, key) && NoneHas(s, key, key(x))
  {
    var all := [x] + s;
    if DistinctKeys(all, key) {
      forall i, j | 0 <= i < j < |s| ensures key(s[i]) != key(s[j]) {
        assert all[i + 1] == s[i] && all[j + 1] == s[j];
      }
      forall i | 0 <= i < |s| ensures key(s[i]) != key(x) {
        assert all[i + 1] == s[i] && all[0] == x;
      }
    }
  }

  lemma SnocDistinct<T>(s: seq<T>, x: T, key: T -> seq<nat>)
    ensures DistinctKeys(s + [x], key) <==> DistinctKeys(s, key) && NoneHas(s, key, key(x))
  {
    var all := s + [x];
    if DistinctKeys(all, key) {
      forall i, j | 0 <= i < j < |s| ensures key(s[i]) != key(s[j]) {
        assert all[i] == s[i] && all[j] == s[j];
      }
      forall i | 0 <= i < |s| ensures key(s[i]) != key(x) {
        assert all[i] == s[i] && all[|s|] == x;
      }
    }
  }

  lemma {:induction false} InsertDistinct<T>(x: T, s: seq<T>, key: T -> seq<nat>)
    ensures DistinctKeys(Insert(x, s, key), key) <==> DistinctKeys(s, key) && NoneHas(s, key, key(x))
  {
    hide NoneHas, Before, DistinctKeys;
    ConsDistinct(x, s, key);
    if s == [] || Before(key(x), key(s[0])) {
    } else {
      var rest := Insert(x, s[1..], key);
      InsertDistinct(x, s[1..], key);
      ConsDistinct(s[0], rest, key);
      ConsDistinct(s[0], s[1..], key);
      NoneHasInsert(x, s[1..], key, key(s[0]));
      NoneHasCons(s[0], s[1..], key, key(x));
      assert s == [s[0]] + s[1..];
    }
  }

  lemma {:induction false} SortDistinct<T>(s: seq<T>, key: T -> seq<nat>)
    ensures DistinctKeys(Sort(s, key), key) <==> DistinctKeys(s, key)
  {
    hide NoneHas, DistinctKeys;
    if s != [] {
      var front, last := s[..|s| - 1], s[|s| - 1];
      SortDistinct(front, key);
      InsertDistinct(last, Sort(front, key), key);
      NoneHasSort(front, key, key(last));
      SnocDistinct(front, last, key);
      assert s == front + [last];
    }
  }

  /** Sorting ends in strictly increasing keys exactly if no key occurs twice. */
  lemma SortedIffDistinct<T>(s: seq<T>, key: T -> seq<nat>)
    ensures StepwiseSorted(Sort(s, key), key) <==> DistinctKeys(s, key)
  {
    hide Sort, StepwiseSorted, Before;
    SortDistinct(s, key);
    Stepwise(Sort(s, key), key);
    if DistinctKeys(s, key) {
      SortSorts(s, key);
    }
    if StepwiseSorted(Sort(s, key), key) {
      SortedKeysDiffer(Sort(s, key), key);
    }
  }

  lemma {:induction false} InsertEdges(node: GoalNode, nodes: seq<GoalNode>)
    ensures EdgeCount(Insert(node, nodes, RefKey)) == EdgeCount(nodes) + |node.dependsOn|
  {
    hide EdgeCount, Before;
    if nodes == [] || Before(RefKey(node), RefKey(nodes[0])) {
      EdgesCons(node, nodes);
    } else {
      InsertEdges(node, nodes[1..]);
      EdgesCons(nodes[0], Insert(node, nodes[1..], RefKey));
      EdgesCons(nodes[0], nodes[1..]);
      assert nodes == [nodes[0]] + nodes[1..];
    }
  }

  lemma {:induction false} EdgesCons(node: GoalNode, nodes: seq<GoalNode>)
    ensures EdgeCount([node] + nodes) == |node.dependsOn| + EdgeCount(nodes)
  {
    var all := [node] + nodes;
    if nodes == [] {
      assert all[..0] == [];
    } else {
      var front, last := nodes[..|nodes| - 1], nodes[|nodes| - 1];
      EdgesCons(node, front);
      assert all[..|all| - 1] == [node] + front && all[|all| - 1] == last;
    }
  }

  lemma {:induction false} SortEdges(nodes: seq<GoalNode>)
    ensures EdgeCount(Sort(nodes, RefKey)) == EdgeCount(nodes)
  {
    if nodes != [] {
      var front := nodes[..|nodes| - 1];
      SortEdges(front);
      InsertEdges(nodes[|nodes| - 1], Sort(front, RefKey));
    }
  }

  lemma {:induction false} TidyEdges(nodes: seq<GoalNode>)
    ensures EdgeCount(TidyNodes(nodes)) == EdgeCount(nodes)
  {
    if nodes != [] {
      TidyEdges(nodes[..|nodes| - 1]);
      SortKeeps(nodes[|nodes| - 1].dependsOn, UnitKey);
      assert TidyNodes(nodes)[..|nodes| - 1] == TidyNodes(nodes[..|nodes| - 1]);
    }
  }
}
