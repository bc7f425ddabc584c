/**
 A plan made from the tree as it is, and executed while nobody interferes, is applied:
 its preconditions are up to date and its paths can be reached.
 */
module InitProgress {
  import opened Foundations
  import opened MutationModel
  import opened MutationStore
  import opened MutationPlan
  import opened MutationScope
  import opened MutationPhases
  import opened MutationPrepare
  import opened MutationCurrent
  import opened StagePaths
  import opened InitPlan
  import opened InitReach
  import opened InitMutation

  function Observed(mode: InitMode, looks: Looks, nodes: Nodes): seq<PathObservation> {
    SeenAll(looks, nodes, Directories(mode) + Destinations(mode), false, {})
  }

  lemma ObservedAt(mode: InitMode, looks: Looks, nodes: Nodes, path: Path)
    requires path in Directories(mode) + Destinations(mode)
    ensures FindPrecondition(Observed(mode, looks, nodes), path) == Some(Seen(looks, nodes, path, false, false))
  {
    hide Directories, Destinations, Seen;
    var scope := Directories(mode) + Destinations(mode);
    ManagedPathsDiffer(mode);
    SeenPaths(looks, nodes, scope, false, {});
    var i :| 0 <= i < |scope| && scope[i] == path;
    assert ObservedPaths(Observed(mode, looks, nodes))[i] == path;
    FoundUnique(Observed(mode, looks, nodes), Observed(mode, looks, nodes)[i]);
  }

  /** A managed directory is a directory or missing. */
  predicate DirectoriesFree(mode: InitMode, nodes: Nodes) {
    forall path <- Directories(mode) :: Managed(path) in nodes ==> nodes[Managed(path)].Folder?
  }

  lemma NothingBlocked(mode: InitMode, looks: Looks, nodes: Nodes)
    requires DirectoriesFree(mode, nodes)
    ensures Blocks(mode, Observed(mode, looks, nodes))
  {
    hide Directories, Destinations, Observed;
    forall directory, path | directory in Directories(mode) && path in Destinations(mode)
      ensures KindOf(Observed(mode, looks, nodes), directory) != Some(File)
    {
      ObservedAt(mode, looks, nodes, directory);
    }
  }

  lemma FreshPlanIsReady(mode: InitMode, rootIdentity: Identity, snapshot: InitSnapshot, looks: Looks, nodes: Nodes, seed: string)
    requires ValidSeed(seed) && DirectoriesFree(mode, nodes)
    requires PlanMutation(mode, rootIdentity, snapshot, Observed(mode, looks, nodes), seed).Preview?
    requires forall path <- PlanMutation(mode, rootIdentity, snapshot, Observed(mode, looks, nodes), seed).plan.body.stagePreconditions ::
      Stage(path) !in nodes
    ensures var plan := PlanMutation(mode, rootIdentity, snapshot, Observed(mode, looks, nodes), seed).plan;
      UpToDate(plan, mode, looks, nodes) && Reachable(plan, Directories(mode))
  {
    hide Directories, Destinations, Observed, PlanMutation, Reachable, Blocks, Captured, Seen, Stages;
    var observed := Observed(mode, looks, nodes);
    var plan := PlanMutation(mode, rootIdentity, snapshot, observed, seed).plan;
    NothingBlocked(mode, looks, nodes);
    PlanIsReachable(mode, rootIdentity, snapshot, observed, seed);
    PlanParts(mode, rootIdentity, snapshot, observed, seed);
    var scope := Directories(mode) + Destinations(mode);
    forall entry | entry in plan.body.preconditions ensures LooksAs(entry, looks, nodes, scope, false, {}) {
      var i :| 0 <= i < |scope| && plan.body.preconditions[i] == entry;
      ObservedAt(mode, looks, nodes, scope[i]);
    }
  }
}
