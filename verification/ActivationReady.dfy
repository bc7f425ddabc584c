/**
 What an undisturbed Activation run needs of its plan and its tree in order to finish:
 a second look that excuses its own directories, and a legacy directory that ends up empty
 (packages/cli/src/activation-mutation.ts:147-168, 477-492).
 */
module ActivationReady {
  import opened Foundations
  import opened MutationModel
  import opened MutationStore
  import opened MutationPlan
  import opened MutationRun
  import opened MutationSteps
  import opened MutationCleanup
  import opened MutationPhases
  import opened MutationFinish
  import opened MutationPrepare
  import opened MutationCurrent
  import opened MutationVerdict
  import opened StagePaths
  import opened ActivationScope

  const LISTED: set<Path> := {SKILL_DIRECTORY, LEGACY_DIRECTORY}

  /** A created skill directory is excused only while nothing but stages is in it. */
  predicate StillEmpty(entry: PathObservation) {
    entry.path != SKILL_DIRECTORY || (entry.kind == Directory && entry.members == Some([]))
  }

  // ---------------------------------------------------------------------
  // The plan's view of the tree
  // ---------------------------------------------------------------------

  /** The tree is the one the plan was made for, in the eyes of an undisturbed observer. */
  ghost predicate UpToDate(plan: Plan, looks: Looks, nodes: Nodes) {
    Current(plan, looks, nodes, SCOPE, true, LISTED) && Planted(nodes) && looks.names({}) == []
  }

  /** The files to be replaced are exactly the planned ones: identity, mode and contents. */
  lemma OriginalsAgree(plan: Plan, looks: Looks, run: Run)
    requires Fits(plan, run) && Current(plan, looks, run.before, SCOPE, true, LISTED)
    ensures OriginalsPlanned(plan, run, true)
  {
    forall i: nat | i < |run.items|
      ensures var expected := FindPrecondition(plan.body.preconditions, run.items[i].path);
        expected.Some? && AsPlanned(run, run.items[i], true, expected.value)
    {
      var expected := FindPrecondition(plan.body.preconditions, run.items[i].path);
      assert LooksAs(expected.value, looks, run.before, SCOPE, true, LISTED);
      assert Target(run, i) in run.before ==> run.before[Target(run, i)].RegularFile?;
    }
  }

  lemma SlashFree()
    ensures '/' !in "skills" && '/' !in "praxisbound" && '/' !in ".agents"
    ensures ".agents" + "/" + "skills" == ".agents/skills"
    ensures ".agents/skills" + "/" + "praxisbound" == SKILL_DIRECTORY
  {
  }

  /** Each directory a run creates lies in the root or in the one before it. */
  lemma CreatedParents()
    ensures ParentPath(".agents") == "" && ParentPath(".agents/skills") == ".agents"
    ensures ParentPath(SKILL_DIRECTORY) == ".agents/skills"
  {
    SlashFree();
    SeparatorIsUnique(".agents", -1);
    ParentOfChild(".agents", "skills");
    ParentOfChild(".agents/skills", "praxisbound");
  }

  ghost predicate CreatedElsewhere(created: seq<Path>) {
    forall owned <- created :: ParentPath(owned) != LEGACY_DIRECTORY
  }

  lemma NotInListed(created: seq<Path>)
    requires forall path <- created :: path in CREATED_DIRECTORIES
    ensures forall path <- LISTED, owned <- created :: owned == path || ParentPath(owned) != path
    ensures forall owned <- created :: ParentPath(owned) != SKILL_DIRECTORY
    ensures CreatedElsewhere(created)
  {
    hide ParentPath;
    CreatedParents();
    ScopeLengths();
  }

  /** A directory that was missing had no members, and preparation adds none. */
  lemma CreatedIsEmpty(before: Nodes, nodes: Nodes, created: seq<Path>)
    requires Planted(before) && Managed(SKILL_DIRECTORY) !in before
    requires forall path :: path in created || SameAt(before, nodes, Managed(path))
    requires forall owned <- created :: ParentPath(owned) != SKILL_DIRECTORY
    ensures Members(nodes, SKILL_DIRECTORY) == {}
  {
    hide ParentPath;
    SameMembers(before, nodes, SKILL_DIRECTORY, created);
    ScopeLengths();
    forall path | Managed(path) in before ensures ParentPath(path) != SKILL_DIRECTORY {
      assert ParentPresent(before, Managed(path));
    }
  }

  lemma EmptyIsExcused(plan: Plan, looks: Looks, before: Nodes, nodes: Nodes, created: seq<Owned>)
    requires Planted(before) && looks.names({}) == []
    requires OnlyCreated(before, nodes, LISTED, created) && PlannedMissing(plan, before, created)
    requires forall owned <- OwnedPaths(created) :: ParentPath(owned) != SKILL_DIRECTORY
    ensures StillExcused(looks, nodes, true, LISTED, StillEmpty, created)
  {
    hide ParentPath, Members, Planted;
    forall path | path in OwnedPaths(created)
      ensures StillEmpty(Seen(looks, nodes, path, true, path in LISTED))
    {
      if path == SKILL_DIRECTORY {
        CreatedIsEmpty(before, nodes, OwnedPaths(created));
        var k :| 0 <= k < |created| && OwnedPaths(created)[k] == path;
        assert IsOwned(nodes, OfDirectories, created[k]);
      }
    }
  }

  /** After preparation an undisturbed second look still finds the planned tree. */
  lemma PreparedIsCurrent(store: Store, plan: Plan, run: Run, copies: seq<Identity>, made: PreparedRun)
    requires ReadyToApply(store, plan, run, copies, made) && Supplied(run, store.nodes, made)
    requires UpToDate(plan, store.looks, run.before)
    requires forall path <- OwnedPaths(made.created) :: path in CREATED_DIRECTORIES
    ensures SecondLookFits(plan, store.looks, store.nodes, SCOPE, true, LISTED, StillEmpty, made.created)
  {
    hide Holds, TraceOk, Supplied, Current, OnlyCreated, SecondLookFits, Planted, StillExcused, ParentPath, PlannedMissing;
    ScopeDiffers();
    NotInListed(OwnedPaths(made.created));
    PreparedOnlyCreated(plan, run, copies, store.nodes, made, LISTED);
    EmptyIsExcused(plan, store.looks, run.before, store.nodes, made.created);
    SecondLook(plan, store.looks, run.before, store.nodes, SCOPE, true, LISTED, StillEmpty, made.created);
  }

  // ---------------------------------------------------------------------
  // The legacy directory
  // ---------------------------------------------------------------------

  ghost predicate Removes(plan: Plan, path: Path) {
    exists i :: 0 <= i < |plan.body.effects| && plan.body.effects[i].path == path && plan.body.effects[i].kind.Remove?
  }

  /** The plan puts nothing into the legacy directory. */
  ghost predicate LeavesLegacy(plan: Plan) {
    && (forall i :: 0 <= i < |plan.body.effects| && ParentPath(plan.body.effects[i].path) == LEGACY_DIRECTORY ==>
          plan.body.effects[i].kind.Remove?)
    && (forall path <- plan.body.stagePreconditions :: ParentPath(path) != LEGACY_DIRECTORY)
  }

  /** Whatever is in the legacy directory is removed by the plan. */
  ghost predicate RemovesAll(plan: Plan, nodes: Nodes) {
    forall place <- nodes :: place != Managed(LEGACY_DIRECTORY) && ParentOf(place) == Managed(LEGACY_DIRECTORY) ==>
      place.Managed? && Removes(plan, place.path)
  }

  ghost predicate Vacates(plan: Plan, nodes: Nodes) {
    LeavesLegacy(plan) && RemovesAll(plan, nodes)
  }

  /** With every effect in place, the legacy directory is empty. */
  lemma LegacyIsEmptied(plan: Plan, run: Run, copies: seq<Identity>, nodes: Nodes, created: seq<Owned>, stages: seq<Owned>)
    requires Fits(plan, run) && |copies| == |run.items| && Vacates(plan, run.before)
    requires Holdings(plan, run, nodes, created, stages, None)
    requires Holds(run, nodes, copies, Progress(|run.items|, |run.items|, Changed, Ready))
    requires CreatedElsewhere(OwnedPaths(created))
    ensures EmptyFolder(nodes, Managed(LEGACY_DIRECTORY))
  {
    hide ParentPath, Fits, Confined, Holds, StagesAccounted, PlannedMissing;
    forall place | place in nodes && place != Managed(LEGACY_DIRECTORY)
      ensures ParentOf(place) != Managed(LEGACY_DIRECTORY)
    {
      if ParentOf(place) == Managed(LEGACY_DIRECTORY) {
        InLegacyIsGone(plan, run, copies, nodes, created, place);
        assert false;
      }
    }
  }

  lemma Touched(plan: Plan, created: set<Path>, a: Nodes, b: Nodes, place: Place)
    requires Confined(plan, created, None, a, b)
    ensures SameAt(a, b, place) || (if place.Managed? then place.path in EffectPaths(plan) || place.path in created
                                    else OwnerPath(place) in plan.body.stagePreconditions)
  {
    assert SameAt(a, b, place) || MayTouch(plan, created, None, place);
  }

  lemma RemovedIsGone(plan: Plan, run: Run, copies: seq<Identity>, nodes: Nodes, i: nat)
    requires ItemsMatch(plan, run) && |copies| == |run.items| && i < |run.items| && plan.body.effects[i].kind.Remove?
    requires Holds(run, nodes, copies, Progress(|run.items|, |run.items|, Changed, Ready))
    ensures Managed(plan.body.effects[i].path) !in nodes
  {
    hide Holds;
    ItemOf(run, nodes, copies, Progress(|run.items|, |run.items|, Changed, Ready), i);
  }

  lemma InLegacyIsGone(plan: Plan, run: Run, copies: seq<Identity>, nodes: Nodes, created: seq<Owned>, place: Place)
    requires Fits(plan, run) && |copies| == |run.items| && Vacates(plan, run.before)
    requires Confined(plan, ToSet(OwnedPaths(created)), None, run.before, nodes)
    requires Holds(run, nodes, copies, Progress(|run.items|, |run.items|, Changed, Ready))
    requires CreatedElsewhere(OwnedPaths(created))
    requires place != Managed(LEGACY_DIRECTORY) && ParentOf(place) == Managed(LEGACY_DIRECTORY)
    ensures place !in nodes
  {
    hide ParentPath, WellLaidOut, ExpectationsHold, PlanFits, WellFormedPlan, Confined;
    if place in nodes {
      Touched(plan, ToSet(OwnedPaths(created)), run.before, nodes, place);
      if SameAt(run.before, nodes, place) {
        assert Removes(plan, place.path);
        var i :| 0 <= i < |plan.body.effects| && plan.body.effects[i].path == place.path && plan.body.effects[i].kind.Remove?;
        RemovedIsGone(plan, run, copies, nodes, i);
      } else {
        var i :| 0 <= i < |EffectPaths(plan)| && EffectPaths(plan)[i] == place.path;
        RemovedIsGone(plan, run, copies, nodes, i);
      }
    }
  }

  /** With every effect in place, nothing stands in the way of the last steps. */
  lemma ReadyToFinish(plan: Plan, run: Run, copies: seq<Identity>, nodes: Nodes, made: PreparedRun)
    requires Fits(plan, run) && |copies| == |run.items| && OwnStages(nodes, made.p.stages)
    requires Holdings(plan, run, nodes, made.created, made.p.stages, None)
    requires Holds(run, nodes, copies, Progress(|run.items|, |run.items|, Changed, Ready))
    requires CreatedElsewhere(OwnedPaths(made.created)) && (HasRemoval(plan) ==> Vacates(plan, run.before))
    ensures Finishing(plan, nodes, made.p.stages)
  {
    hide Holds, OwnStages, EmptyFolder, CreatedElsewhere, Vacates, Holdings;
    if HasRemoval(plan) {
      LegacyIsEmptied(plan, run, copies, nodes, made.created, made.p.stages);
    }
  }

  ghost predicate Finishing(plan: Plan, nodes: Nodes, stages: seq<Owned>) {
    OwnStages(nodes, stages) && (HasRemoval(plan) ==> EmptyFolder(nodes, Managed(LEGACY_DIRECTORY)))
  }
}
