/**
 When an undisturbed executor finds its plan up to date: at the first look, and again
 after it has prepared everything (packages/cli/src/init-mutation.ts:254-290, 355-377, 453-489;
 packages/cli/src/activation-mutation.ts:147-188, 254-276, 381-421).
 */
module MutationCurrent {
  import opened Foundations
  import opened MutationModel
  import opened MutationStore
  import opened MutationPlan
  import opened MutationRun
  import opened MutationSteps
  import opened MutationPhases
  import opened MutationFinish
  import opened MutationRecheck
  import opened MutationPrepare

  /** The tree looks as it did to the planner, and no stage is in the way. */
  ghost predicate Current(plan: Plan, looks: Looks, nodes: Nodes, scope: seq<Path>, detailed: bool, listed: set<Path>) {
    && (forall entry <- plan.body.preconditions :: LooksAs(entry, looks, nodes, scope, detailed, listed))
    && (forall path <- plan.body.stagePreconditions :: Stage(path) !in nodes)
  }

  predicate LooksAs(entry: PathObservation, looks: Looks, nodes: Nodes, scope: seq<Path>, detailed: bool, listed: set<Path>) {
    entry.path in scope && entry == RecordedAs(Seen(looks, nodes, entry.path, detailed, entry.path in listed), detailed)
  }

  lemma SeenPaths(looks: Looks, nodes: Nodes, scope: seq<Path>, detailed: bool, listed: set<Path>)
    ensures ObservedPaths(SeenAll(looks, nodes, scope, detailed, listed)) == scope
  {
    hide Members;
  }

  lemma ExpectedExactly(entry: PathObservation, looks: Looks, nodes: Nodes, scope: seq<Path>, detailed: bool, listed: set<Path>)
    requires Distinct(scope)
    ensures AsExpected(Recorded(SeenAll(looks, nodes, scope, detailed, listed), detailed), entry) <==>
            LooksAs(entry, looks, nodes, scope, detailed, listed)
  {
    hide Seen;
    var recorded := Recorded(SeenAll(looks, nodes, scope, detailed, listed), detailed);
    SeenPaths(looks, nodes, scope, detailed, listed);
    if entry.path in scope {
      var i :| 0 <= i < |scope| && scope[i] == entry.path;
      assert recorded[i] in recorded && ObservedPaths(recorded)[i] == entry.path;
      FoundUnique(recorded, recorded[i]);
    } else if AsExpected(recorded, entry) {
      FoundIffListed(recorded, entry.path);
      assert false;
    }
  }

  lemma {:induction false} StageFound(stages: seq<StageObservation>, entry: StageObservation)
    requires entry in stages
    ensures FindStage(stages, entry.path).Some?
  {
    var front, last := stages[..|stages| - 1], stages[|stages| - 1];
    assert stages == front + [last];
    if last.path != entry.path {
      StageFound(front, entry);
    }
  }

  lemma NoCollision(paths: seq<Path>)
    ensures CollidingStages(paths, MissingStages(paths)) == []
  {
    forall path | path in paths ensures StageMissing(MissingStages(paths), path) {
      var i :| 0 <= i < |paths| && paths[i] == path;
      assert MissingStages(paths)[i] == StageObservation(path, Missing);
      StageFound(MissingStages(paths), StageObservation(path, Missing));
    }
  }

  /** The first look finds no mismatch exactly when the tree is current. */
  lemma FirstLook(plan: Plan, looks: Looks, nodes: Nodes, scope: seq<Path>, detailed: bool, listed: set<Path>,
                  stages: seq<StageObservation>)
    requires Distinct(scope)
    requires forall entry <- stages :: entry.kind == Missing ==> Stage(entry.path) !in nodes
    requires (forall path <- plan.body.stagePreconditions :: Stage(path) !in nodes) ==>
      stages == MissingStages(plan.body.stagePreconditions)
    ensures FindMismatches(plan, Recorded(SeenAll(looks, nodes, scope, detailed, listed), detailed), stages) == [] <==>
            Current(plan, looks, nodes, scope, detailed, listed)
  {
    hide LooksAs, AsExpected, Seen, FindStage;
    var recorded := Recorded(SeenAll(looks, nodes, scope, detailed, listed), detailed);
    SeenPaths(looks, nodes, scope, detailed, listed);
    UniqueIffDistinct(scope);
    forall entry | entry in plan.body.preconditions
      ensures AsExpected(recorded, entry) <==> LooksAs(entry, looks, nodes, scope, detailed, listed)
    {
      ExpectedExactly(entry, looks, nodes, scope, detailed, listed);
    }
    NoCollision(plan.body.stagePreconditions);
    if FindMismatches(plan, recorded, stages) == [] {
      forall path | path in plan.body.stagePreconditions ensures Stage(path) !in nodes {
        assert StageMissing(stages, path);
        assert FindStage(stages, path).value in stages;
      }
    }
  }

  // ---------------------------------------------------------------------
  // The second look
  // ---------------------------------------------------------------------

  lemma {:induction false} CreatedKnown(created: seq<Owned>, owned: Owned)
    requires owned in created && Distinct(OwnedPaths(created))
    ensures CreatedIdentity(created, owned.path) == Some(owned.identity)
  {
    var front, last := created[..|created| - 1], created[|created| - 1];
    var i :| 0 <= i < |created| && created[i] == owned;
    assert OwnedPaths(front) == OwnedPaths(created)[..|front|];
    if i < |front| {
      assert OwnedPaths(created)[i] != OwnedPaths(created)[|front|];
      assert front[i] == owned;
      CreatedKnown(front, owned);
    }
  }

  /** What preparation has done to the managed tree: nothing but the directories the run owns. */
  ghost predicate OnlyCreated(before: Nodes, nodes: Nodes, listed: set<Path>, created: seq<Owned>) {
    && Distinct(OwnedPaths(created)) && OwnAll(nodes, OfDirectories, created)
    && (forall path :: path in OwnedPaths(created) || SameAt(before, nodes, Managed(path)))
    && (forall path <- listed :: path in OwnedPaths(created) || Members(before, path) == Members(nodes, path))
  }

  lemma SeenTheSame(looks: Looks, before: Nodes, nodes: Nodes, path: Path, detailed: bool, listed: set<Path>, created: seq<Owned>)
    requires OnlyCreated(before, nodes, listed, created) && path !in OwnedPaths(created)
    ensures Seen(looks, before, path, detailed, path in listed) == Seen(looks, nodes, path, detailed, path in listed)
  {
    hide Members, OwnAll;
    assert SameAt(before, nodes, Managed(path));
  }

  ghost predicate StillExcused(looks: Looks, nodes: Nodes, detailed: bool, listed: set<Path>,
                               stillEmpty: PathObservation -> bool, created: seq<Owned>)
  {
    forall path <- OwnedPaths(created) :: stillEmpty(Seen(looks, nodes, path, detailed, path in listed))
  }

  /** One path at the second look: excused as the run's own directory, or as at the first look. */
  lemma NormalizedAsPlanned(plan: Plan, looks: Looks, before: Nodes, nodes: Nodes, scope: seq<Path>, detailed: bool,
                            listed: set<Path>, stillEmpty: PathObservation -> bool, created: seq<Owned>,
                            entry: PathObservation, i: nat)
    requires WellFormedPlan(plan) && entry in plan.body.preconditions && i < |scope| && scope[i] == entry.path
    requires LooksAs(entry, looks, before, scope, detailed, listed)
    requires OnlyCreated(before, nodes, listed, created) && PlannedMissing(plan, before, created)
    requires StillExcused(looks, nodes, detailed, listed, stillEmpty, created)
    ensures RecordedAs(Normalized(plan, SeenAll(looks, nodes, scope, detailed, listed), created, stillEmpty)[i], detailed) == entry
  {
    FoundUnique(plan.body.preconditions, entry);
    if entry.path in OwnedPaths(created) {
      var k :| 0 <= k < |created| && OwnedPaths(created)[k] == entry.path;
      CreatedKnown(created, created[k]);
      assert IsOwned(nodes, OfDirectories, created[k]);
      var planned :| planned in plan.body.preconditions && planned.path == entry.path && planned.kind == Missing;
      FoundUnique(plan.body.preconditions, planned);
    } else {
      SeenTheSame(looks, before, nodes, entry.path, detailed, listed, created);
    }
  }

  lemma SecondLook(plan: Plan, looks: Looks, before: Nodes, nodes: Nodes, scope: seq<Path>, detailed: bool,
                   listed: set<Path>, stillEmpty: PathObservation -> bool, created: seq<Owned>)
    requires WellFormedPlan(plan) && Distinct(scope) && Current(plan, looks, before, scope, detailed, listed)
    requires OnlyCreated(before, nodes, listed, created) && PlannedMissing(plan, before, created)
    requires StillExcused(looks, nodes, detailed, listed, stillEmpty, created)
    ensures SecondLookFits(plan, looks, nodes, scope, detailed, listed, stillEmpty, created)
  {
    hide WellFormedPlan, OnlyCreated, PlannedMissing, StillExcused, Seen, LooksAs, Excused;
    var normalized := Normalized(plan, SeenAll(looks, nodes, scope, detailed, listed), created, stillEmpty);
    var recorded := Recorded(normalized, detailed);
    SeenPaths(looks, nodes, scope, detailed, listed);
    assert ObservedPaths(recorded) == scope;
    UniqueIffDistinct(scope);
    NoCollision(plan.body.stagePreconditions);
    forall entry | entry in plan.body.preconditions ensures AsExpected(recorded, entry) {
      InScope(entry, looks, before, scope, detailed, listed);
      var i :| 0 <= i < |scope| && scope[i] == entry.path;
      NormalizedAsPlanned(plan, looks, before, nodes, scope, detailed, listed, stillEmpty, created, entry, i);
      assert recorded[i] == entry;
      FoundUnique(recorded, entry);
    }
  }

  lemma InScope(entry: PathObservation, looks: Looks, nodes: Nodes, scope: seq<Path>, detailed: bool, listed: set<Path>)
    requires LooksAs(entry, looks, nodes, scope, detailed, listed)
    ensures entry.path in scope
  {
  }

  // ---------------------------------------------------------------------
  // What a prepared run has changed
  // ---------------------------------------------------------------------

  lemma ManagedUnchanged(plan: Plan, run: Run, copies: seq<Identity>, nodes: Nodes, created: seq<Owned>, stages: seq<Owned>, path: Path)
    requires Holdings(plan, run, nodes, created, stages, None) && |copies| == |run.items|
    requires Holds(run, nodes, copies, Progress(|run.items|, |run.items|, Ready, Idle))
    ensures path in OwnedPaths(created) || SameAt(run.before, nodes, Managed(path))
  {
    UntouchedTargets(run, nodes, copies, Progress(|run.items|, |run.items|, Ready, Idle));
    assert SameAt(run.before, nodes, Managed(path)) || MayTouch(plan, ToSet(OwnedPaths(created)), None, Managed(path));
    if path in EffectPaths(plan) {
      var i :| 0 <= i < |EffectPaths(plan)| && EffectPaths(plan)[i] == path;
      assert SameAt(run.before, nodes, Target(run, i));
    }
  }

  lemma PreparedOnlyCreated(plan: Plan, run: Run, copies: seq<Identity>, nodes: Nodes, made: PreparedRun, listed: set<Path>)
    requires Holdings(plan, run, nodes, made.created, made.p.stages, None) && |copies| == |run.items|
    requires Holds(run, nodes, copies, Progress(|run.items|, |run.items|, Ready, Idle))
    requires Supplied(run, nodes, made)
    requires forall path <- listed, owned <- OwnedPaths(made.created) :: owned == path || ParentPath(owned) != path
    ensures OnlyCreated(run.before, nodes, listed, made.created)
  {
    hide Holds, FoldersKept, OwnAll, Confined, StagesAccounted, PlannedMissing, WellFormedPlan, ItemsMatch;
    forall path ensures path in OwnedPaths(made.created) || SameAt(run.before, nodes, Managed(path)) {
      ManagedUnchanged(plan, run, copies, nodes, made.created, made.p.stages, path);
    }
    forall path | path in listed ensures Members(run.before, path) == Members(nodes, path) {
      SameMembers(run.before, nodes, path, OwnedPaths(made.created));
    }
  }

  lemma SameMembers(a: Nodes, b: Nodes, path: Path, created: seq<Path>)
    requires forall other :: other in created || SameAt(a, b, Managed(other))
    requires forall owned <- created :: owned == path || ParentPath(owned) != path
    ensures Members(a, path) == Members(b, path)
  {
    hide ParentPath;
    forall other ensures other in Members(a, path) <==> other in Members(b, path) {
      assert other in Members(a, path) <==> Managed(other) in a && other != path && ParentPath(other) == path;
      assert other in Members(b, path) <==> Managed(other) in b && other != path && ParentPath(other) == path;
      assert other in created || SameAt(a, b, Managed(other));
    }
  }
}
