/**
 A plan made without force or upgrade replaces and removes nothing
 (packages/core/src/init.ts:780-870), so that a committed run leaves everything that was there.
 */
module InitSafety {
  import opened Foundations
  import opened MutationModel
  import opened MutationScope
  import opened MutationStore
  import opened MutationRun
  import opened MutationPhases
  import opened MutationFinish
  import opened InitPlan
  import opened StagePaths

  /** Every effect installs a file where the plan saw none. */
  ghost predicate InstallsOnly(plan: Plan) {
    forall i :: 0 <= i < |plan.body.effects| ==>
      plan.body.effects[i].kind == Install && SeenMissing(plan, plan.body.effects[i].path)
  }

  predicate SeenMissing(plan: Plan, path: Path) {
    exists k :: 0 <= k < |plan.body.preconditions| && plan.body.preconditions[k].path == path && plan.body.preconditions[k].kind == Missing
  }

  lemma NoConflict(observed: seq<PathObservation>)
    requires ModeProblem(Safe, observed).None?
    ensures forall path <- Destinations(Safe) :: KindOf(observed, path) != Some(File)
  {
    hide Destinations, KindOf;
    var there := path => KindOf(observed, path) == Some(File);
    assert FirstUnsafe(Destinations(Safe), there).None?;
    forall path | path in Destinations(Safe) ensures KindOf(observed, path) != Some(File) {
      assert !there(path);
    }
  }

  lemma SafeDestinationsAreMissing(snapshot: InitSnapshot, observed: seq<PathObservation>)
    requires Screen(Safe, snapshot, observed).None?
    ensures forall path <- Destinations(Safe) :: KindOf(observed, path) == Some(Missing)
  {
    hide Destinations, Directories, FirstUnsafe, ValidSnapshot, ModeProblem, Unique;
    ScreenedObservations(Safe, snapshot, observed);
    NoConflict(observed);
  }

  lemma LegacyIsNotSafe()
    ensures LEGACY_MARKER !in Destinations(Safe)
  {
    MarkerLengths();
    TemplateLengths();
    GuidanceLengths();
  }

  /** The effect planned for one destination, and what was seen there. */
  lemma SafeEffect(plan: Plan, snapshot: InitSnapshot, observed: seq<PathObservation>, directories: seq<Path>, destinations: seq<Path>,
                   i: nat)
    requires forall path <- directories + destinations :: FindPrecondition(observed, path).Some?
    requires plan.body.preconditions == Captured(observed, directories + destinations)
    requires plan.body.effects == PlannedEffects(snapshot, observed, destinations) && i < |destinations|
    requires LEGACY_MARKER !in destinations && KindOf(observed, destinations[i]) == Some(Missing)
    ensures plan.body.effects[i].kind == Install && SeenMissing(plan, plan.body.effects[i].path)
  {
    var path, k := destinations[i], |directories| + i;
    assert (directories + destinations)[k] == path;
    assert path in destinations;
    assert plan.body.preconditions[k].path == path && plan.body.preconditions[k].kind == Missing;
  }

  /** A safe plan only installs, and only where nothing was. */
  lemma SafePlanInstallsOnly(rootIdentity: Identity, snapshot: InitSnapshot, observed: seq<PathObservation>, seed: string)
    requires ValidSeed(seed) && PlanMutation(Safe, rootIdentity, snapshot, observed, seed).Preview?
    ensures InstallsOnly(PlanMutation(Safe, rootIdentity, snapshot, observed, seed).plan)
  {
    hide Destinations, Directories, Screen, Captured, PlannedEffects, SeenMissing, KindOf, Stages, ValidSeed;
    var plan := PlanMutation(Safe, rootIdentity, snapshot, observed, seed).plan;
    ScreenedObservations(Safe, snapshot, observed);
    SafeDestinationsAreMissing(snapshot, observed);
    LegacyIsNotSafe();
    assert EffectDestinations(Safe, observed) == Destinations(Safe);
    forall i | 0 <= i < |plan.body.effects|
      ensures plan.body.effects[i].kind == Install && SeenMissing(plan, plan.body.effects[i].path)
    {
      assert Destinations(Safe)[i] in Destinations(Safe);
      SafeEffect(plan, snapshot, observed, Directories(Safe), Destinations(Safe), i);
    }
  }

  /** Whatever was there before a committed run of such a plan is there afterwards, unchanged. */
  lemma InstallsKeepEverything(plan: Plan, run: Run, nodes: Nodes, place: Place)
    requires InstallsOnly(plan) && PlanFits(plan, run.before) && TreeCommitted(plan, run, nodes) && place in run.before
    ensures SameAt(run.before, nodes, place)
  {
    hide AllPlanned;
    if place.Managed? {
      forall i | 0 <= i < |plan.body.effects| ensures EffectPaths(plan)[i] != place.path {
        assert SeenMissing(plan, plan.body.effects[i].path);
        var k :| 0 <= k < |plan.body.preconditions| && plan.body.preconditions[k].path == plan.body.effects[i].path &&
          plan.body.preconditions[k].kind == Missing;
        assert Truthful(run.before, plan.body.preconditions[k]);
      }
    }
  }
}
