/**
 The second look before anything is applied: recapture the managed paths, excuse
 the directories this run created, and confirm the run still owns them
 (packages/cli/src/init-mutation.ts:254-290, 453-471; activation-mutation.ts:147-188, 381-403).
 */
module MutationRecheck {
  import opened Foundations
  import opened MutationModel
  import opened MutationStore
  import opened MutationEvaluate
  import opened MutationPlan
  import opened MutationRun
  import opened MutationSteps
  import opened MutationPhases
  import opened MutationFinish

  function CreatedIdentity(created: seq<Owned>, path: Path): Option<Identity> {
    if created == [] then None
    else if created[|created| - 1].path == path then Some(created[|created| - 1].identity)
    else CreatedIdentity(created[..|created| - 1], path)
  }

  /**
   The lookup compares an absent created identity with an absent observed one, so an
   entry without identity also counts as created.
   */
  predicate Excused(expected: Option<PathObservation>, created: seq<Owned>, entry: PathObservation) {
    && CreatedIdentity(created, entry.path) == entry.identity
    && expected.Some? && expected.value.kind == Missing
  }

  function Normalized(plan: Plan, actual: seq<PathObservation>, created: seq<Owned>,
                      stillEmpty: PathObservation -> bool): (entries: seq<PathObservation>)
    ensures |entries| == |actual|
    ensures forall i :: 0 <= i < |actual| ==> entries[i].path == actual[i].path
    ensures forall i :: 0 <= i < |actual| ==>
      var expected := FindPrecondition(plan.body.preconditions, actual[i].path);
      entries[i] == if Excused(expected, created, actual[i]) && stillEmpty(actual[i]) then expected.value else actual[i]
  {
    seq(|actual|, i requires 0 <= i < |actual| =>
      var expected := FindPrecondition(plan.body.preconditions, actual[i].path);
      if Excused(expected, created, actual[i]) && stillEmpty(actual[i]) then expected.value else actual[i])
  }

  function MissingStages(paths: seq<Path>): (stages: seq<StageObservation>)
    ensures |stages| == |paths|
    ensures forall i :: 0 <= i < |paths| ==> stages[i] == StageObservation(paths[i], Missing)
  {
    seq(|paths|, i requires 0 <= i < |paths| => StageObservation(paths[i], Missing))
  }

  function WithoutRepeats(paths: seq<Path>, seen: seq<Path>): (r: seq<Path>)
    ensures forall path <- r :: path in paths && path !in seen
    ensures r == [] <==> forall path <- paths :: path in seen
  {
    if paths == [] then []
    else if paths[0] in seen then WithoutRepeats(paths[1..], seen)
    else [paths[0]] + WithoutRepeats(paths[1..], seen)
  }

  lemma {:induction false} WithoutRepeatsDistinct(paths: seq<Path>, seen: seq<Path>)
    requires Distinct(paths)
    ensures Distinct(WithoutRepeats(paths, seen))
  {
    if paths != [] {
      WithoutRepeatsDistinct(paths[1..], seen);
      assert paths[0] !in paths[1..];
      if paths[0] !in seen {
        DistinctCons(paths[0], WithoutRepeats(paths[1..], seen));
      }
    }
  }

  /**
   Where the second look reports a path: exactly where the observation differs from the
   expectation and is not excused. A symlink or an unconfirmable entry has no identity,
   so at a path that was expected to be missing it is excused.
   */
  lemma RecaptureReports(plan: Plan, actual: seq<PathObservation>, created: seq<Owned>, entry: PathObservation)
    requires WellFormedPlan(plan) && Distinct(ObservedPaths(actual)) && entry in actual
    requires FindPrecondition(plan.body.preconditions, entry.path).Some?
    ensures var expected := FindPrecondition(plan.body.preconditions, entry.path);
      var normalized := Normalized(plan, actual, created, _ => true);
      entry.path !in MismatchedPaths(plan.body.preconditions, normalized) <==>
        (entry == expected.value || Excused(expected, created, entry))
  {
    var expected := FindPrecondition(plan.body.preconditions, entry.path).value;
    var normalized := Normalized(plan, actual, created, _ => true);
    var i :| 0 <= i < |actual| && actual[i] == entry;
    assert ObservedPaths(normalized) == ObservedPaths(actual);
    FoundUnique(normalized, normalized[i]);
    MismatchedExactly(plan.body.preconditions, normalized, expected);
  }

  lemma {:induction false} MismatchedExactly(expected: seq<PathObservation>, observations: seq<PathObservation>, entry: PathObservation)
    requires entry in expected && Distinct(ObservedPaths(expected))
    ensures entry.path in MismatchedPaths(expected, observations) <==> !AsExpected(observations, entry)
  {
    assert ObservedPaths(expected[1..]) == ObservedPaths(expected)[1..];
    if expected[0] == entry {
      forall path | path in MismatchedPaths(expected[1..], observations) ensures path != entry.path {
        var other :| other in expected[1..] && other.path == path;
        var j :| 0 <= j < |expected[1..]| && expected[1..][j] == other;
        assert ObservedPaths(expected)[j + 1] == path;
      }
    } else {
      MismatchedExactly(expected[1..], observations, entry);
      var j :| 0 <= j < |expected| && expected[j] == entry;
      assert ObservedPaths(expected)[0] != ObservedPaths(expected)[j];
    }
  }

  lemma SymlinkEscapesRecapture(plan: Plan, actual: seq<PathObservation>, created: seq<Owned>, path: Path)
    requires WellFormedPlan(plan) && Distinct(ObservedPaths(actual)) && Plain(path, Symlink) in actual
    requires FindPrecondition(plan.body.preconditions, path) == Some(Plain(path, Missing))
    requires CreatedIdentity(created, path).None?
    ensures path !in MismatchedPaths(plan.body.preconditions, Normalized(plan, actual, created, _ => true))
  {
    RecaptureReports(plan, actual, created, Plain(path, Symlink));
  }

  /** `changedOwnedDirectories`: owned directories that cannot be confirmed to be the run's own. */
  method ChangedOwned(store: Store, list: seq<Owned>, staged: bool) returns (changed: seq<Path>)
    requires Distinct(OwnedPaths(list))
    ensures Distinct(changed) && forall path <- changed :: path in OwnedPaths(list)
    ensures store.calm && OwnAll(store.nodes, if staged then OfStages else OfDirectories, list) ==> changed == []
  {
    changed := [];
    for i := 0 to |list|
      invariant Distinct(changed) && forall path <- changed :: path in OwnedPaths(list)[..i]
      invariant store.calm && OwnAll(store.nodes, if staged then OfStages else OfDirectories, list) ==> changed == []
    {
      assert OwnAll(store.nodes, if staged then OfStages else OfDirectories, list) ==>
        IsOwned(store.nodes, if staged then OfStages else OfDirectories, list[i]);
      var seen := store.Inspect(if staged then Stage(list[i].path) else Managed(list[i].path));
      if seen != Present(Folder(list[i].identity)) {
        assert OwnedPaths(list)[i] !in OwnedPaths(list)[..i];
        DistinctAppend(changed, list[i].path);
        changed := changed + [list[i].path];
      }
    }
  }

  function PreparedMismatches(recapture: seq<Path>, changed: seq<Path>): seq<Path> {
    recapture + WithoutRepeats(changed, recapture)
  }

  lemma PreparedMismatchesAreEvidence(plan: Plan, run: Run, normalized: seq<PathObservation>, created: seq<Owned>,
                                      stages: seq<Owned>, directories: seq<Path>, folders: seq<Path>)
    requires WellFormedPlan(plan) && ItemsMatch(plan, run) && PlannedMissing(plan, run.before, created)
    requires |stages| <= |run.items| && OwnedPaths(stages) == plan.body.stagePreconditions[..|stages|]
    requires Distinct(directories) && forall path <- directories :: path in OwnedPaths(created)
    requires Distinct(folders) && forall path <- folders :: path in OwnedPaths(stages)
    ensures EvidenceList(plan, PreparedMismatches(
      FindMismatches(plan, normalized, MissingStages(plan.body.stagePreconditions)), directories + folders))
  {
    var recapture := FindMismatches(plan, normalized, MissingStages(plan.body.stagePreconditions));
    MismatchesAreEvidence(plan, normalized, MissingStages(plan.body.stagePreconditions));
    EffectsAndFoldersListed(plan, run, created);
    var changed := directories + folders;
    forall i, j | 0 <= i < j < |changed| ensures changed[i] != changed[j] {
      if i < |directories| <= j {
        assert directories[i] in directories && folders[j - |directories|] in folders;
      }
    }
    WithoutRepeatsDistinct(changed, recapture);
    var extra := WithoutRepeats(changed, recapture);
    UniqueIffDistinct(recapture);
    var all := recapture + extra;
    forall i, j | 0 <= i < j < |all| ensures all[i] != all[j] {
      if i < |recapture| <= j {
        assert extra[j - |recapture|] in extra && recapture[i] in recapture;
      }
    }
    UniqueIffDistinct(all);
  }
}
