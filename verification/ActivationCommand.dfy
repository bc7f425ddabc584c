/**
 `codex activate --apply` from the first look to the verdict: observe, plan, execute, evaluate
 (packages/cli/src/activation.ts:394-452), and what planning again finds afterwards.
 */
module ActivationCommand {
  import opened Foundations
  import opened MutationModel
  import opened MutationStore
  import opened MutationRun
  import opened MutationPrepare
  import opened MutationCurrent
  import opened MutationVerdict
  import opened MarkerSpan
  import opened StagePaths
  import opened ActivationScope
  import opened ActivationReady
  import opened ActivationPlan
  import opened ActivationPlanned
  import opened ActivationFixpoint
  import opened ActivationTree
  import opened ActivationProgress
  import opened DirectoryNames
  import opened ActivationAgents
  import Folder = ActivationFolder
  import Executor = ActivationMutation

  /** The source has a skill to install, and a block that no legacy marker line can be found in. */
  predicate Settling(source: Source) {
    !OnlyMark(source.skill.bytes) && Unmarked(LEGACY, LinesOf(source.agentBlock.bytes))
  }

  /**
   A run that was applied to the tree it was planned from is a fixpoint: for a fresh install, an
   upgrade and a migration alike, planning again from the tree it left finds nothing to do,
   unless the packaged skill is a bare byte order mark or the packaged block carries a legacy
   marker line. The source checks exclude neither.
   */
  lemma ActivationSettles(q: Request, o: Observation, after: Nodes, orphan: Option<Place>, copy: Option<Identity>, laterSeed: string)
    requires Accepted(q) && ValidSeed(laterSeed) && Planted(q.before) && Planted(after)
    requires Faithful(q.looks) && Opens(q.looks)
    requires |q.contents| == |q.plan.body.effects| == |q.plan.body.stagePreconditions| && RunOf(q).items != []
    requires VerdictHolds(q.plan, RunOf(q), after, orphan, copy, o, Applied)
    ensures PlanActivation(q.rootIdentity, q.source, Observed(q.looks, after), laterSeed).Unchanged? <==> Settling(q.source)
  {
    hide Faithful, Opens, Planted, Observed, FirstProblem, ObservesInstalled, Payloads, Executor.ContentsOf;
    CommittedIsInstalled(q, after);
    SettlesWhereObserved(q.rootIdentity, q.source, Paths(q), q.seed, Observed(q.looks, after), laterSeed);
  }

  lemma ContentsKnown(rootIdentity: Identity, source: Source, paths: seq<PathObservation>, seed: string)
    requires ValidSeed(seed) && PlanActivation(rootIdentity, source, paths, seed).Previewed?
    ensures var result := PlanActivation(rootIdentity, source, paths, seed);
      Executor.ContentsOf(result.plan, PayloadMap(result.payloads)).Contents?
  {
    hide PlanActivation, PayloadMap, Executor.ContentFor;
    PayloadsAreAccepted(rootIdentity, source, paths, seed);
  }

  /** The same look later finds the fixpoint. */
  ghost predicate Settled(rootIdentity: Identity, source: Source, looks: Looks, nodes: Nodes) {
    forall seed :: ValidSeed(seed) ==>
      (PlanActivation(rootIdentity, source, Observed(looks, nodes), seed).Unchanged? <==> Settling(source))
  }

  lemma AppliedIsSettled(store: Store, q: Request, o: Observation)
    requires Accepted(q) && Planted(q.before) && Faithful(q.looks) && Opens(q.looks)
    requires |q.contents| == |q.plan.body.effects| == |q.plan.body.stagePreconditions| && RunOf(q).items != []
    requires Delivered(store, q.plan, RunOf(q), o) && Evaluate(q.plan, o) == Applied
    ensures Settled(q.rootIdentity, q.source, q.looks, store.nodes)
  {
    hide Accepted, Faithful, Opens, Planted, VerdictHolds, Observed, Settling, PlanActivation, TraceOk, ValidSeed;
    forall seed | ValidSeed(seed)
      ensures PlanActivation(q.rootIdentity, q.source, Observed(q.looks, store.nodes), seed).Unchanged? <==> Settling(q.source)
    {
      ActivationSettles(q, o, store.nodes, store.orphan, store.flags.copy, seed);
    }
  }

  /** Nothing of another run is in the way of a plan. */
  ghost predicate Clear(plan: Plan, nodes: Nodes) {
    NoStrayStages(nodes) && forall path <- plan.body.stagePreconditions :: Stage(path) !in nodes
  }

  lemma WellFormedHasItems(q: Request)
    requires Accepted(q) && Folder.WellFormedActivation(q.plan)
    ensures |q.contents| == |q.plan.body.effects| == |q.plan.body.stagePreconditions| && RunOf(q).items != []
  {
    hide PlanActivation, Executor.ContentsOf, PayloadMap;
  }

  /**
   Observe, plan and execute. The report is always one that Core accepts. Without failures a plan
   is applied, or undone completely when the run is interrupted; and after an applied run the
   same look finds the fixpoint.
   */
  method Activate(store: Store, rootIdentity: Identity, rootLater: Option<Identity>, source: Source, seed: string)
    returns (planned: PlanResult, o: Option<Observation>)
    requires store.Valid() && ValidSeed(seed)
    modifies store
    ensures o.Some? <==> planned.Previewed?
    ensures o.None? ==> store.nodes == old(store.nodes)
    ensures o.Some? ==> Evaluate(planned.plan, o.value) != ObservationInvalid
    ensures store.calm && o.Some? && rootLater == Some(rootIdentity) && Faithful(store.looks) && Clear(planned.plan, old(store.nodes)) ==>
      Evaluate(planned.plan, o.value) == if store.interrupted then ApplyFailedRecovered else Applied
    ensures store.calm && o.Some? && Faithful(store.looks) && Opens(store.looks) && Evaluate(planned.plan, o.value) == Applied ==>
      Settled(rootIdentity, source, store.looks, store.nodes)
  {
    hide Faithful, Opens, Planted, Clear, Settled, PlanActivation, Executor.ContentsOf, PayloadMap, TraceOk, SeenAll, ValidSeed;
    hide Folder.WellFormedActivation, Executor.Unhindered, Current;
    var paths := Capture(store, SCOPE, true, LISTED);
    planned := PlanActivation(rootIdentity, source, paths, seed);
    o := None;
    if planned.Previewed? {
      PlanIsWellFormed(rootIdentity, source, paths, seed);
      ContentsKnown(rootIdentity, source, paths, seed);
      ghost var q := Request(rootIdentity, source, store.looks, store.nodes, seed, planned.plan, planned.payloads,
                             Executor.ContentsOf(planned.plan, PayloadMap(planned.payloads)).list);
      if store.calm && Faithful(store.looks) && Clear(planned.plan, store.nodes) {
        FreshIsReady(q);
      }
      var report := Executor.ExecuteActivationMutation(store, rootLater, planned.plan, PayloadMap(planned.payloads));
      o := Some(report);
      if store.calm && Faithful(store.looks) && Opens(store.looks) && Evaluate(planned.plan, report) == Applied {
        WellFormedHasItems(q);
        AppliedIsSettled(store, q, report);
      }
    }
  }

  lemma PlanRoot(q: Request)
    requires Accepted(q)
    ensures q.plan.body.rootIdentity == q.rootIdentity
  {
    hide FirstProblem, Payloads, EffectsFor, StagesFor, Observed, Executor.ContentsOf;
    assert Reason(FirstProblem(q.source, Paths(q)));
  }

  lemma FreshIsReady(q: Request)
    requires Accepted(q) && Faithful(q.looks) && Clear(q.plan, q.before)
    ensures Current(q.plan, q.looks, q.before, SCOPE, true, LISTED) && Executor.Unhindered(q.plan, q.looks, q.before)
    ensures q.plan.body.rootIdentity == q.rootIdentity
  {
    PlanRoot(q);
    hide Accepted, Faithful, NoStrayStages, Current, Executor.Unhindered;
    FreshPlanIsReady(q);
  }
}
