/**
 What the executors rely on in a plan, and the comparison of a plan's
 preconditions with a fresh observation (findInitPreconditionMismatches in
 packages/core/src/init.ts, findActivationPreconditionMismatches in activation.ts).
 */
module MutationPlan {
  import opened Foundations
  import opened MutationModel
  import opened MutationStore
  import opened MutationEvaluate

  /** The facts about a plan that planning establishes and execution needs. */
  ghost predicate WellFormedPlan(plan: Plan) {
    var b := plan.body;
    && plan.planId == PlanHash(b)
    && b.effects != [] && |b.stagePreconditions| == |b.effects|
    && Distinct(PreconditionPaths(plan)) && Distinct(EffectPaths(plan)) && Distinct(b.stagePreconditions)
    && (forall path <- b.stagePreconditions :: path !in PreconditionPaths(plan))
    && (forall path <- EffectPaths(plan) ::
          exists entry :: entry in b.preconditions && entry.path == path && (entry.kind == File || entry.kind == Missing))
    && b.effects[|b.effects| - 1].path == b.commitMarker
    && !b.effects[|b.effects| - 1].kind.Remove?
  }

  predicate PlannedKind(plan: Plan, path: Path, kind: Kind) {
    var expected := FindPrecondition(plan.body.preconditions, path);
    expected.Some? && expected.value.kind == kind
  }

  /** The directory of a path is the root, one that the plan saw, or one of those it finds missing. */
  predicate Housed(plan: Plan, directories: seq<Path>, path: Path) {
    var parent := ParentPath(path);
    parent == "" || PlannedKind(plan, parent, Directory) || (parent in directories && PlannedKind(plan, parent, Missing))
  }

  /** Creating the missing directories in order gives every destination and every stage its directory. */
  predicate Reachable(plan: Plan, directories: seq<Path>) {
    && "" !in directories
    && (forall d :: 0 <= d < |directories| && PlannedKind(plan, directories[d], Missing) ==>
          Housed(plan, directories[..d], directories[d]))
    && (forall path <- EffectPaths(plan) :: Housed(plan, directories, path))
    && (forall path <- plan.body.stagePreconditions :: Housed(plan, directories, path))
  }

  lemma FoundIffListed(entries: seq<PathObservation>, path: Path)
    ensures FindPrecondition(entries, path).Some? <==> path in ObservedPaths(entries)
  {
    if FindPrecondition(entries, path).Some? {
      var i :| 0 <= i < |entries| && entries[i] == FindPrecondition(entries, path).value;
      assert ObservedPaths(entries)[i] == path;
    }
    if path in ObservedPaths(entries) {
      var i :| 0 <= i < |entries| && ObservedPaths(entries)[i] == path;
      assert entries[i] in entries && entries[i].path == path;
    }
  }

  predicate AsExpected(observations: seq<PathObservation>, expected: PathObservation) {
    FindPrecondition(observations, expected.path) == Some(expected)
  }

  function FindStage(stages: seq<StageObservation>, path: Path): (r: Option<StageObservation>)
    ensures r.Some? ==> r.value in stages && r.value.path == path
  {
    if stages == [] then None
    else
      var last := stages[|stages| - 1];  // a later Map entry replaces an earlier one
      if last.path == path then Some(last) else FindStage(stages[..|stages| - 1], path)
  }

  predicate StageMissing(stages: seq<StageObservation>, path: Path) {
    FindStage(stages, path) == Some(StageObservation(path, Missing))
  }

  function MismatchedPaths(expected: seq<PathObservation>, observations: seq<PathObservation>): (r: seq<Path>)
    ensures forall path <- r :: exists entry :: entry in expected && entry.path == path
    ensures r == [] <==> forall entry <- expected :: AsExpected(observations, entry)
  {
    if expected == [] then []
    else
      var rest := MismatchedPaths(expected[1..], observations);
      if AsExpected(observations, expected[0]) then rest else [expected[0].path] + rest
  }

  function CollidingStages(expected: seq<Path>, stages: seq<StageObservation>): (r: seq<Path>)
    ensures forall path <- r :: path in expected
    ensures r == [] <==> forall path <- expected :: StageMissing(stages, path)
  {
    if expected == [] then []
    else
      var rest := CollidingStages(expected[1..], stages);
      if StageMissing(stages, expected[0]) then rest else [expected[0]] + rest
  }

  function FindMismatches(plan: Plan, observations: seq<PathObservation>, stages: seq<StageObservation>): seq<Path> {
    if !Unique(ObservedPaths(observations)) then PreconditionPaths(plan)
    else
      MismatchedPaths(plan.body.preconditions, observations) +
      CollidingStages(plan.body.stagePreconditions, stages)
  }

  /** An observation as the plan recorded it, without contents and member names when `terse`. */
  function RecordedAs(entry: PathObservation, terse: bool): (r: PathObservation)
    ensures r.path == entry.path && r.kind == entry.kind
  {
    if terse then entry.(text := None, members := None) else entry
  }

  function Recorded(entries: seq<PathObservation>, terse: bool): (r: seq<PathObservation>)
    ensures |r| == |entries|
    ensures ObservedPaths(r) == ObservedPaths(entries)
    ensures forall i :: 0 <= i < |entries| ==> r[i] == RecordedAs(entries[i], terse)
  {
    seq(|entries|, i requires 0 <= i < |entries| => RecordedAs(entries[i], terse))
  }

  lemma RecordedTruthful(entries: seq<PathObservation>, terse: bool, nodes: Nodes)
    requires forall entry <- entries :: Truthful(nodes, entry)
    ensures forall entry <- Recorded(entries, terse) :: Truthful(nodes, entry)
  {
    forall i | 0 <= i < |entries| ensures Truthful(nodes, Recorded(entries, terse)[i]) {
      assert entries[i] in entries;
    }
  }

  lemma MismatchesAreEvidence(plan: Plan, observations: seq<PathObservation>, stages: seq<StageObservation>)
    requires WellFormedPlan(plan)
    ensures EvidenceList(plan, FindMismatches(plan, observations, stages))
  {
    var paths := FindMismatches(plan, observations, stages);
    if Unique(ObservedPaths(observations)) {
      var left := MismatchedPaths(plan.body.preconditions, observations);
      var right := CollidingStages(plan.body.stagePreconditions, stages);
      MismatchedDistinct(plan.body.preconditions, observations);
      CollidingDistinct(plan.body.stagePreconditions, stages);
      forall path | path in left ensures path in PreconditionPaths(plan) {
        var entry :| entry in plan.body.preconditions && entry.path == path;
        var i :| 0 <= i < |plan.body.preconditions| && plan.body.preconditions[i] == entry;
        assert PreconditionPaths(plan)[i] == path;
      }
      forall i, j | 0 <= i < j < |left + right| ensures (left + right)[i] != (left + right)[j] {
        if i < |left| && |left| <= j {
          assert left[i] in left && right[j - |left|] in right;
        }
      }
    }
    UniqueIffDistinct(paths);
  }

  lemma {:induction false} MismatchedDistinct(expected: seq<PathObservation>, observations: seq<PathObservation>)
    requires Distinct(ObservedPaths(expected))
    ensures Distinct(MismatchedPaths(expected, observations))
  {
    if expected != [] {
      assert ObservedPaths(expected[1..]) == ObservedPaths(expected)[1..];
      MismatchedDistinct(expected[1..], observations);
      var rest := MismatchedPaths(expected[1..], observations);
      forall path | path in rest ensures path != expected[0].path {
        var entry :| entry in expected[1..] && entry.path == path;
        var i :| 0 <= i < |expected[1..]| && expected[1..][i] == entry;
        assert ObservedPaths(expected)[i + 1] == path;
      }
      DistinctCons(expected[0].path, rest);
    }
  }

  lemma {:induction false} CollidingDistinct(expected: seq<Path>, stages: seq<StageObservation>)
    requires Distinct(expected)
    ensures Distinct(CollidingStages(expected, stages))
  {
    if expected != [] {
      CollidingDistinct(expected[1..], stages);
      assert expected[0] !in expected[1..];
    }
  }

  /** No mismatch means the tree is exactly what the plan was made for. */
  lemma NoMismatch(plan: Plan, observations: seq<PathObservation>, stages: seq<StageObservation>, nodes: Nodes)
    requires WellFormedPlan(plan) && FindMismatches(plan, observations, stages) == []
    requires forall entry <- observations :: Truthful(nodes, entry)
    requires forall entry <- stages :: entry.kind == Missing ==> Stage(entry.path) !in nodes
    ensures forall entry <- plan.body.preconditions :: Truthful(nodes, entry)
    ensures forall path <- plan.body.stagePreconditions :: Stage(path) !in nodes
  {
    assert EffectPaths(plan)[0] in EffectPaths(plan);
    assert |PreconditionPaths(plan)| > 0;
    forall entry | entry in plan.body.preconditions ensures Truthful(nodes, entry) {
      assert AsExpected(observations, entry);
    }
    forall path | path in plan.body.stagePreconditions ensures Stage(path) !in nodes {
      assert StageMissing(stages, path);
    }
  }
}
