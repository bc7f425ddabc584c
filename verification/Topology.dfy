/**
 The dependency check of a goal plan (validateTopology in
 packages/core/src/goal-plan-artifacts.ts:889-939): unknown and self dependencies, then a
 three-colour depth-first search for a cycle.
 */
module Topology {
  import opened Foundations
  import JsonText

  type Text = JsonText.Text

  datatype TopologyNode = TopologyNode(nodeRef: Text, dependsOn: seq<Text>)

  datatype TopologyFault =
    | UnknownDependency(node: Text, dependency: Text)
    | DependsOnItself(node: Text)
    | CyclicTopology

  /** No colour yet stands for an unvisited node. */
  datatype Colour = Grey | Black

  type Graph = map<Text, seq<Text>>

  function Known(nodes: seq<TopologyNode>): set<Text> {
    set i | 0 <= i < |nodes| :: nodes[i].nodeRef
  }

  predicate NodeDependsOn(node: TopologyNode, ref: Text, dependency: Text) {
    node.nodeRef == ref && dependency in node.dependsOn
  }

  predicate DependsOn(nodes: seq<TopologyNode>, ref: Text, dependency: Text) {
    exists i :: 0 <= i < |nodes| && NodeDependsOn(nodes[i], ref, dependency)
  }

  // ---------------------------------------------------------------------
  // What a fault means
  // ---------------------------------------------------------------------

  /** The first dependency of a node that is unknown or the node itself. */
  function BadDependency(ref: Text, dependsOn: seq<Text>, known: set<Text>): Option<TopologyFault> {
    if dependsOn == [] then None
    else if dependsOn[0] !in known then Some(UnknownDependency(ref, dependsOn[0]))
    else if dependsOn[0] == ref then Some(DependsOnItself(ref))
    else BadDependency(ref, dependsOn[1..], known)
  }

  function FirstBadEdge(nodes: seq<TopologyNode>, known: set<Text>): Option<TopologyFault> {
    if nodes == [] then None
    else if BadDependency(nodes[0].nodeRef, nodes[0].dependsOn, known).Some?
    then BadDependency(nodes[0].nodeRef, nodes[0].dependsOn, known)
    else FirstBadEdge(nodes[1..], known)
  }

  /** What depends on an entry comes behind it. */
  ghost predicate Forward(nodes: seq<TopologyNode>, order: seq<Text>) {
    forall i, ref :: 0 <= i < |order| && DependsOn(nodes, ref, order[i]) ==> ref in order[i + 1..]
  }

  /** Every node, once, behind everything it depends on. */
  ghost predicate TopologicalOrder(nodes: seq<TopologyNode>, order: seq<Text>) {
    Distinct(order) && ToSet(order) == Known(nodes) && Forward(nodes, order)
  }

  ghost predicate Sortable(nodes: seq<TopologyNode>) {
    exists order :: TopologicalOrder(nodes, order)
  }

  /** Each entry depends on the one before it, and the first on the last. */
  ghost predicate DependencyCycle(nodes: seq<TopologyNode>, cycle: seq<Text>) {
    && cycle != []
    && (forall k :: 0 < k < |cycle| ==> DependsOn(nodes, cycle[k], cycle[k - 1]))
    && DependsOn(nodes, cycle[0], cycle[|cycle| - 1])
  }

  ghost function Fault(nodes: seq<TopologyNode>): Option<TopologyFault> {
    if FirstBadEdge(nodes, Known(nodes)).Some? then FirstBadEdge(nodes, Known(nodes))
    else if Sortable(nodes) then None
    else Some(CyclicTopology)
  }

  ghost predicate EdgesAreGood(nodes: seq<TopologyNode>, known: set<Text>) {
    forall i, d :: 0 <= i < |nodes| && 0 <= d < |nodes[i].dependsOn| ==>
      nodes[i].dependsOn[d] in known && nodes[i].dependsOn[d] != nodes[i].nodeRef
  }

  lemma {:induction false} BadDependencyMeaning(ref: Text, dependsOn: seq<Text>, known: set<Text>)
    ensures BadDependency(ref, dependsOn, known).None? <==>
      forall d :: 0 <= d < |dependsOn| ==> dependsOn[d] in known && dependsOn[d] != ref
    ensures match BadDependency(ref, dependsOn, known)
      case None => true
      case Some(UnknownDependency(node, dependency)) => node == ref && dependency in dependsOn && dependency !in known
      case Some(DependsOnItself(node)) => node == ref && ref in dependsOn
      case Some(CyclicTopology) => false
  {
    if dependsOn != [] {
      BadDependencyMeaning(ref, dependsOn[1..], known);
      assert dependsOn == [dependsOn[0]] + dependsOn[1..];
    }
  }

  lemma {:induction false} FirstBadEdgeMeaning(nodes: seq<TopologyNode>, known: set<Text>)
    ensures FirstBadEdge(nodes, known).None? <==> EdgesAreGood(nodes, known)
    ensures match FirstBadEdge(nodes, known)
      case None => true
      case Some(UnknownDependency(node, dependency)) => DependsOn(nodes, node, dependency) && dependency !in known
      case Some(DependsOnItself(node)) => DependsOn(nodes, node, node)
      case Some(CyclicTopology) => false
  {
    if nodes != [] {
      var node, rest := nodes[0], nodes[1..];
      BadDependencyMeaning(node.nodeRef, node.dependsOn, known);
      FirstBadEdgeMeaning(rest, known);
      assert forall i :: 0 <= i < |rest| ==> rest[i] == nodes[i + 1];
      assert forall i :: 0 < i < |nodes| ==> nodes[i] == rest[i - 1];
      if BadDependency(node.nodeRef, node.dependsOn, known).Some? {
        var fault := BadDependency(node.nodeRef, node.dependsOn, known).value;
        assert fault.UnknownDependency? ==> NodeDependsOn(nodes[0], fault.node, fault.dependency);
        assert fault.DependsOnItself? ==> NodeDependsOn(nodes[0], fault.node, fault.node);
      } else if FirstBadEdge(rest, known).Some? {
        var fault := FirstBadEdge(rest, known).value;
        var dependency := if fault.UnknownDependency? then fault.dependency else fault.node;
        var i :| 0 <= i < |rest| && NodeDependsOn(rest[i], fault.node, dependency);
        assert NodeDependsOn(nodes[i + 1], fault.node, dependency);
      }
    }
  }

  /** A topology is accepted exactly when its edges are good and it can be put in order. */
  lemma TopologyMeaning(nodes: seq<TopologyNode>)
    ensures Fault(nodes).None? <==> EdgesAreGood(nodes, Known(nodes)) && Sortable(nodes)
    ensures match Fault(nodes)
      case None => true
      case Some(UnknownDependency(node, dependency)) => DependsOn(nodes, node, dependency) && dependency !in Known(nodes)
      case Some(DependsOnItself(node)) => DependsOn(nodes, node, node)
      case Some(CyclicTopology) => EdgesAreGood(nodes, Known(nodes)) && !Sortable(nodes)
  {
    FirstBadEdgeMeaning(nodes, Known(nodes));
  }

  lemma {:induction false} CycleStaysBehind(nodes: seq<TopologyNode>, cycle: seq<Text>, order: seq<Text>, p: nat, k: nat)
    returns (q: nat)
    requires Forward(nodes, order) && DependencyCycle(nodes, cycle)
    requires p < |order| && order[p] == cycle[0] && k < |cycle|
    ensures p + k <= q < |order| && order[q] == cycle[k]
    decreases k
  {
    q := p;
    if k > 0 {
      var r := CycleStaysBehind(nodes, cycle, order, p, k - 1);
      assert DependsOn(nodes, cycle[k], order[r]);
      q :| r + 1 <= q < |order| && order[q] == cycle[k];
    }
  }

  /** Going round a cycle leads to a later entry with the same name. */
  lemma CycleRepeats(nodes: seq<TopologyNode>, cycle: seq<Text>, order: seq<Text>)
    requires DependencyCycle(nodes, cycle) && ToSet(order) == Known(nodes) && Forward(nodes, order)
    ensures !Distinct(order)
  {
    var last := cycle[|cycle| - 1];
    var i :| 0 <= i < |nodes| && NodeDependsOn(nodes[i], cycle[0], last);
    assert cycle[0] in ToSet(order);
    var p :| 0 <= p < |order| && order[p] == cycle[0];
    var q := CycleStaysBehind(nodes, cycle, order, p, |cycle| - 1);
    assert DependsOn(nodes, cycle[0], order[q]);
    var r :| q + 1 <= r < |order| && order[r] == cycle[0];
    assert order[p] == order[r];
  }

  /** A cycle leaves no order. */
  lemma CycleExcludesOrder(nodes: seq<TopologyNode>, cycle: seq<Text>, order: seq<Text>)
    requires DependencyCycle(nodes, cycle)
    ensures !TopologicalOrder(nodes, order)
  {
    if ToSet(order) == Known(nodes) && Forward(nodes, order) {
      CycleRepeats(nodes, cycle, order);
    }
  }

  // ---------------------------------------------------------------------
  // The graph of dependents
  // ---------------------------------------------------------------------

  function Outgoing(graph: Graph, ref: Text): seq<Text> {
    if ref in graph then graph[ref] else []
  }

  /** The nodes read so far, in the map from a node to those that depend on it. */
  ghost predicate GraphOf(graph: Graph, nodes: seq<TopologyNode>) {
    forall ref, dependency :: ref in Outgoing(graph, dependency) <==> DependsOn(nodes, ref, dependency)
  }

  /** As `GraphOf`, with some dependencies of a further node. */
  ghost predicate GraphWith(graph: Graph, nodes: seq<TopologyNode>, ref: Text, dependsOn: seq<Text>) {
    forall r, d :: r in Outgoing(graph, d) <==> DependsOn(nodes, r, d) || (r == ref && d in dependsOn)
  }

  lemma DependsOnAppend(nodes: seq<TopologyNode>, node: TopologyNode, ref: Text, dependency: Text)
    ensures DependsOn(nodes + [node], ref, dependency) <==>
      DependsOn(nodes, ref, dependency) || NodeDependsOn(node, ref, dependency)
  {
    var all := nodes + [node];
    if DependsOn(nodes, ref, dependency) {
      var i :| 0 <= i < |nodes| && NodeDependsOn(nodes[i], ref, dependency);
      assert NodeDependsOn(all[i], ref, dependency);
    }
    if NodeDependsOn(node, ref, dependency) {
      assert NodeDependsOn(all[|nodes|], ref, dependency);
    }
  }

  lemma GraphGrows(graph: Graph, nodes: seq<TopologyNode>, node: TopologyNode)
    requires GraphWith(graph, nodes, node.nodeRef, node.dependsOn)
    ensures GraphOf(graph, nodes + [node])
  {
    forall ref, dependency ensures ref in Outgoing(graph, dependency) <==> DependsOn(nodes + [node], ref, dependency) {
      DependsOnAppend(nodes, node, ref, dependency);
    }
  }

  method AddNode(graph: Graph, ghost nodes: seq<TopologyNode>, node: TopologyNode, known: set<Text>)
    returns (fault: Option<TopologyFault>, grown: Graph)
    requires GraphOf(graph, nodes)
    ensures fault == BadDependency(node.nodeRef, node.dependsOn, known)
    ensures fault.None? ==> GraphOf(grown, nodes + [node])
  {
    grown := graph;
    for d := 0 to |node.dependsOn|
      invariant BadDependency(node.nodeRef, node.dependsOn, known) == BadDependency(node.nodeRef, node.dependsOn[d..], known)
      invariant GraphWith(grown, nodes, node.nodeRef, node.dependsOn[..d])
    {
      var dependency := node.dependsOn[d];
      if dependency !in known {
        return Some(UnknownDependency(node.nodeRef, dependency)), grown;
      }
      if dependency == node.nodeRef {
        return Some(DependsOnItself(node.nodeRef)), grown;
      }
      grown := grown[dependency := Outgoing(grown, dependency) + [node.nodeRef]];
      assert node.dependsOn[..d + 1] == node.dependsOn[..d] + [dependency];
    }
    assert node.dependsOn[..|node.dependsOn|] == node.dependsOn;
    GraphGrows(grown, nodes, node);
    fault := None;
  }

  method BuildGraph(nodes: seq<TopologyNode>, known: set<Text>) returns (fault: Option<TopologyFault>, graph: Graph)
    ensures fault == FirstBadEdge(nodes, known)
    ensures fault.None? ==> GraphOf(graph, nodes)
  {
    graph := map[];
    for i := 0 to |nodes|
      invariant GraphOf(graph, nodes[..i]) && FirstBadEdge(nodes, known) == FirstBadEdge(nodes[i..], known)
    {
      fault, graph := AddNode(graph, nodes[..i], nodes[i], known);
      if fault.Some? {
        return;
      }
      assert nodes[..i + 1] == nodes[..i] + [nodes[i]];
    }
    assert nodes[..|nodes|] == nodes;
    fault := None;
  }

  // ---------------------------------------------------------------------
  // The depth-first search
  // ---------------------------------------------------------------------

  ghost predicate GraphCycle(graph: Graph, cycle: seq<Text>) {
    && cycle != []
    && (forall k :: 0 < k < |cycle| ==> cycle[k] in Outgoing(graph, cycle[k - 1]))
    && cycle[0] in Outgoing(graph, cycle[|cycle| - 1])
  }

  ghost predicate Linked(graph: Graph, path: seq<Text>) {
    forall k :: 0 < k < |path| ==> path[k] in Outgoing(graph, path[k - 1])
  }

  /** Everything that depends on an entry comes behind it. */
  ghost predicate Ordered(graph: Graph, done: seq<Text>) {
    Distinct(done) && forall i, ref :: 0 <= i < |done| && ref in Outgoing(graph, done[i]) ==> ref in done[i + 1..]
  }

  lemma LinkedMore(graph: Graph, path: seq<Text>, id: Text)
    requires Linked(graph, path) && (path != [] ==> id in Outgoing(graph, path[|path| - 1]))
    ensures Linked(graph, path + [id])
  {
  }

  lemma OrderedCons(graph: Graph, id: Text, done: seq<Text>)
    requires Ordered(graph, done) && id !in done && forall ref <- Outgoing(graph, id) :: ref in done
    ensures Ordered(graph, [id] + done)
  {
    var all := [id] + done;
    DistinctCons(id, done);
    forall i, ref | 0 <= i < |all| && ref in Outgoing(graph, all[i]) ensures ref in all[i + 1..] {
      if i == 0 {
        assert all[1..] == done;
      } else {
        assert done[i - 1] == all[i] && all[i + 1..] == done[i..];
      }
    }
  }

  /** `next`, on the path, closes a cycle with what comes after it. */
  lemma CycleFound(graph: Graph, path: seq<Text>, next: Text) returns (cycle: seq<Text>)
    requires Linked(graph, path) && path != [] && next in path && next in Outgoing(graph, path[|path| - 1])
    ensures GraphCycle(graph, cycle)
  {
    var i :| 0 <= i < |path| && path[i] == next;
    cycle := path[i..];
    forall k | 0 < k < |cycle| ensures cycle[k] in Outgoing(graph, cycle[k - 1]) {
      assert cycle[k] == path[i + k] && cycle[k - 1] == path[i + k - 1];
    }
  }

  /** The list holds exactly the nodes of this colour. */
  ghost predicate Painted(colours: map<Text, Colour>, refs: seq<Text>, colour: Colour) {
    forall ref :: ref in refs <==> ref in colours && colours[ref] == colour
  }

  lemma PaintGrey(colours: map<Text, Colour>, path: seq<Text>, done: seq<Text>, id: Text)
    requires Painted(colours, path, Grey) && Painted(colours, done, Black) && id !in colours
    ensures id !in path
    ensures Painted(colours[id := Grey], path + [id], Grey) && Painted(colours[id := Grey], done, Black)
  {
  }

  lemma PaintBlack(colours: map<Text, Colour>, front: seq<Text>, done: seq<Text>, id: Text)
    requires Painted(colours, front + [id], Grey) && Painted(colours, done, Black) && id !in front
    ensures id in colours && id !in done
    ensures Painted(colours[id := Black], front, Grey) && Painted(colours[id := Black], [id] + done, Black)
  {
    assert id in front + [id];
    forall ref ensures ref in front <==> ref in colours[id := Black] && colours[id := Black][ref] == Grey {
      assert ref in front + [id] <==> ref in front || ref == id;
    }
  }

  class Search {
    const graph: Graph
    ghost const known: set<Text>
    var colours: map<Text, Colour>
    ghost var path: seq<Text>
    ghost var done: seq<Text>

    /** The grey nodes are the path to the current node, the black ones are finished. */
    ghost predicate Valid()
      reads this
    {
      && colours.Keys <= known
      && Painted(colours, path, Grey) && Painted(colours, done, Black)
      && Linked(graph, path) && Ordered(graph, done)
      && (forall ref, next :: next in Outgoing(graph, ref) ==> next in known)
    }

    constructor (graph: Graph, ghost known: set<Text>)
      requires forall ref, next :: next in Outgoing(graph, ref) ==> next in known
      ensures Valid() && this.graph == graph && this.known == known && path == [] && done == [] && colours == map[]
    {
      this.graph, this.known, colours := graph, known, map[];
      path, done := [], [];
    }

    /** How many nodes have no colour yet. */
    ghost function Left(): nat
      reads this
    {
      |known - colours.Keys|
    }

    method ColourOf(id: Text) returns (colour: Option<Colour>)
      requires Valid() && id in known
      ensures colour == if id in colours then Some(colours[id]) else None
      ensures colour == Some(Grey) <==> id in path
      ensures colour == Some(Black) <==> id in done
      ensures colour.Some? && colour != Some(Grey) ==> id in done
    {
      colour := if id in colours then Some(colours[id]) else None;
    }

    method Start(id: Text)
      requires Valid() && id in known && id !in colours
      requires path != [] ==> id in Outgoing(graph, path[|path| - 1])
      modifies this
      ensures Valid() && path == old(path) + [id] && done == old(done) && id !in old(path)
      ensures Left() < old(Left())
    {
      hide Ordered, Painted, Linked, Outgoing;
      ghost var left := known - colours.Keys;
      LinkedMore(graph, path, id);
      PaintGrey(colours, path, done, id);
      colours := colours[id := Grey];
      path := path + [id];
      ProperSubset(known - colours.Keys, left, id);
    }

    /** Everything that depends on the node is black. */
    method Finish(id: Text, ghost front: seq<Text>)
      requires Valid() && id in known && path == front + [id] && id !in front && Keeps(Outgoing(graph, id), done)
      modifies this
      ensures Valid() && path == front && done == [id] + old(done) && Left() == old(Left())
    {
      PaintBlack(colours, front, done, id);
      OrderedCons(graph, id, done);
      assert forall k :: 0 <= k < |front| ==> front[k] == path[k];
      ghost var keys := colours.Keys;
      colours := colours[id := Black];
      assert colours.Keys == keys;
      path, done := front, [id] + done;
    }

    lemma NextIsKnown(id: Text, k: nat)
      requires Valid() && k < |Outgoing(graph, id)|
      ensures Outgoing(graph, id)[k] in known
    {
    }

    lemma PathClosed(front: seq<Text>, id: Text, next: Text) returns (cycle: seq<Text>)
      requires Valid() && path == front + [id] && next in path && next in Outgoing(graph, id)
      ensures GraphCycle(graph, cycle)
    {
      assert path[|path| - 1] == id;
      cycle := CycleFound(graph, path, next);
    }

    method Visit(id: Text) returns (cyclic: bool, ghost cycle: seq<Text>)
      requires Valid() && id in known && id !in colours
      requires path != [] ==> id in Outgoing(graph, path[|path| - 1])
      modifies this
      ensures cyclic ==> GraphCycle(graph, cycle)
      ensures !cyclic ==> Valid() && path == old(path) && Keeps([id] + old(done), done) && Left() < old(Left())
      decreases Left()
    {
      hide Valid, Left, Outgoing, GraphCycle, Keeps;
      cycle := [];
      ghost var before := path;
      Start(id);
      var nexts := Outgoing(graph, id);
      KeepsAll(done);
      for k := 0 to |nexts|
        invariant Valid() && path == before + [id] && Left() < old(Left())
        invariant Keeps(old(done), done) && Keeps(nexts[..k], done)
      {
        var next := nexts[k];
        NextIsKnown(id, k);
        assert path[|path| - 1] == id;
        ghost var finished := done;
        var colour := ColourOf(next);
        if colour == Some(Grey) {
          cycle := PathClosed(before, id, next);
          return true, cycle;
        }
        KeepsAll(done);
        if colour == None {
          cyclic, cycle := Visit(next);
          if cyclic {
            return;
          }
          KeepsHead(next, finished, done);
        }
        KeepsMore(nexts[..k], next, finished, done);
        KeepsThrough(old(done), finished, done);
        assert nexts[..k + 1] == nexts[..k] + [next];
      }
      assert nexts[..|nexts|] == nexts;
      ghost var finished := done;
      Finish(id, before);
      KeepsIn(id, old(done), finished);
      cyclic := false;
    }
  }

  /** Nothing of the first list is missing from the second. */
  ghost predicate Keeps(before: seq<Text>, after: seq<Text>) {
    forall ref <- before :: ref in after
  }

  lemma KeepsAll(done: seq<Text>)
    ensures Keeps(done, done) && Keeps([], done)
  {
  }

  lemma KeepsHead(id: Text, before: seq<Text>, after: seq<Text>)
    requires Keeps([id] + before, after)
    ensures id in after && Keeps(before, after)
  {
    assert ([id] + before)[0] == id;
    forall ref <- before ensures ref in after {
      assert ref in [id] + before;
    }
  }

  lemma KeepsMore(seen: seq<Text>, next: Text, before: seq<Text>, after: seq<Text>)
    requires Keeps(seen, before) && Keeps(before, after) && next in after
    ensures Keeps(seen + [next], after)
  {
  }

  lemma KeepsThrough(first: seq<Text>, before: seq<Text>, after: seq<Text>)
    requires Keeps(first, before) && Keeps(before, after)
    ensures Keeps(first, after)
  {
  }

  lemma KeepsIn(id: Text, before: seq<Text>, after: seq<Text>)
    requires Keeps(before, after)
    ensures Keeps([id] + before, [id] + after)
  {
  }

  lemma ProperSubset(part: set<Text>, whole: set<Text>, x: Text)
    requires part <= whole && x in whole && x !in part
    ensures part < whole && |part| < |whole|
  {
    ghost var rest := whole - part;
    assert whole == part + rest && x in rest;
    assert |whole| == |part| + |rest|;
  }

  /** A cycle among the dependents is one among the dependencies. */
  lemma CycleOfNodes(graph: Graph, nodes: seq<TopologyNode>, cycle: seq<Text>)
    requires GraphOf(graph, nodes) && GraphCycle(graph, cycle)
    ensures DependencyCycle(nodes, cycle)
  {
  }

  lemma OrderOfNodes(graph: Graph, nodes: seq<TopologyNode>, done: seq<Text>)
    requires GraphOf(graph, nodes) && Ordered(graph, done) && ToSet(done) == Known(nodes)
    ensures TopologicalOrder(nodes, done)
  {
  }

  lemma DependentsAreKnown(graph: Graph, nodes: seq<TopologyNode>)
    requires GraphOf(graph, nodes)
    ensures forall ref, next :: next in Outgoing(graph, ref) ==> next in Known(nodes)
  {
  }

  lemma CycleIsFault(nodes: seq<TopologyNode>, cycle: seq<Text>)
    requires DependencyCycle(nodes, cycle) && FirstBadEdge(nodes, Known(nodes)).None?
    ensures Fault(nodes) == Some(CyclicTopology)
  {
    forall order ensures !TopologicalOrder(nodes, order) {
      CycleExcludesOrder(nodes, cycle, order);
    }
  }

  method SearchAll(graph: Graph, nodes: seq<TopologyNode>)
    returns (cyclic: bool, ghost cycle: seq<Text>, ghost order: seq<Text>)
    requires GraphOf(graph, nodes)
    ensures if cyclic then DependencyCycle(nodes, cycle) else TopologicalOrder(nodes, order)
  {
    hide Ordered, Linked, GraphCycle, DependencyCycle, GraphOf, Outgoing, TopologicalOrder;
    DependentsAreKnown(graph, nodes);
    cycle, order := [], [];
    var search := new Search(graph, Known(nodes));
    for i := 0 to |nodes|
      invariant search.Valid() && search.path == [] && search.graph == graph && search.known == Known(nodes) && fresh(search)
      invariant forall j :: 0 <= j < i ==> nodes[j].nodeRef in search.done
    {
      var colour := search.ColourOf(nodes[i].nodeRef);
      if colour == None {
        ghost var finished := search.done;
        cyclic, cycle := search.Visit(nodes[i].nodeRef);
        if cyclic {
          CycleOfNodes(graph, nodes, cycle);
          return;
        }
        KeepsHead(nodes[i].nodeRef, finished, search.done);
      }
    }
    order := search.done;
    assert ToSet(order) == Known(nodes);
    OrderOfNodes(graph, nodes, order);
    cyclic := false;
  }

  /** A cycle that is reported is a real one. */
  method ValidateTopology(nodes: seq<TopologyNode>) returns (fault: Option<TopologyFault>, ghost cycle: seq<Text>)
    ensures fault == Fault(nodes)
    ensures fault == Some(CyclicTopology) ==> DependencyCycle(nodes, cycle)
  {
    cycle := [];
    FirstBadEdgeMeaning(nodes, Known(nodes));
    var graph: Graph;
    fault, graph := BuildGraph(nodes, Known(nodes));
    if fault.None? {
      var cyclic;
      ghost var order;
      cyclic, cycle, order := SearchAll(graph, nodes);
      fault := if cyclic then Some(CyclicTopology) else None;
      if cyclic {
        CycleIsFault(nodes, cycle);
      }
    }
  }
}
