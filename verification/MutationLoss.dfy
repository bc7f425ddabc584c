/**
 A recovery that could not restore everything: what the report says and what the tree still
 guarantees (packages/cli/src/init-mutation.ts:582-609, packages/cli/src/activation-mutation.ts:553-576).
 */
module MutationLoss {
  import opened Foundations
  import opened MutationModel
  import opened MutationStore
  import opened MutationEvaluate
  import opened MutationRun
  import opened MutationRecovery
  import opened MutationReports

  /** After a loss: nothing torn, every copy kept, and no new marker unless its removal failed. */
  ghost predicate LossContained(plan: Plan, run: Run, nodes: Nodes, copy: Option<Identity>, o: Observation)
    requires run.items != []
  {
    && o.retained == plan.body.stagePreconditions
    && (forall i: nat :: i < |run.items| ==>
          || AtInitial(run, nodes, i) || AtPlanned(run, nodes, i)
          || (i == |run.items| - 1 && o.invalidated == [plan.body.commitMarker] && Target(run, i) !in nodes))
    && (forall i: nat :: i < |run.items| ==> CopyKept(run, nodes, i))
    && (NewMarkerInPlace(run, nodes, copy) ==> o.invalidationFailed == [plan.body.commitMarker])
  }

  function LossReport(plan: Plan, attempted: seq<Path>, applied: seq<Path>, r: RecoveryState): Observation
    requires r.unrecovered != []
  {
    Recovered(plan, attempted, applied, r, plan.body.stagePreconditions, [],
              Failure(Recovery, RestoreFailed, Some(r.unrecovered[0])))
  }

  lemma LossIsValid(plan: Plan, attempted: seq<Path>, applied: seq<Path>, r: RecoveryState)
    requires RecoveryReport(plan, attempted, applied, r) && r.unrecovered != []
    requires LossHandled(plan, r, plan.body.stagePreconditions)
    ensures ValidInitObservation(plan, LossReport(plan, attempted, applied, r))
  {
    LossIsReportable(plan, attempted, applied, r);
    RecoveredIsValid(plan, attempted, applied, r, plan.body.stagePreconditions, [],
                     Failure(Recovery, RestoreFailed, Some(r.unrecovered[0])));
  }

  /** A lost path leaves every effect on one side of its change, with its copy. */
  lemma LossFromView(plan: Plan, run: Run, nodes: Nodes, copies: seq<Identity>, view: seq<Side>, flags: Flags, o: Observation)
    requires WellLaidOut(run) && Holds(run, nodes, copies, view) && ViewOk(run, copies, view, flags)
    requires forall j :: 0 <= j < |view| ==> view[j] != Idle
    requires view[|view| - 1] == Void ==> o.invalidated == [plan.body.commitMarker]
    requires view[|view| - 1] == Changed ==> o.invalidationFailed == [plan.body.commitMarker]
    requires o.retained == plan.body.stagePreconditions
    ensures LossContained(plan, run, nodes, flags.copy, o) && MarkerKnown(run, nodes, flags.copy)
  {
    ViewStep(run, nodes, copies, view, flags);
    forall i: nat | i < |run.items|
      ensures view[i] == Ready || view[i] == Restored ==> AtInitial(run, nodes, i)
      ensures view[i] == Changed ==> AtPlanned(run, nodes, i)
      ensures view[i] == Void ==> Target(run, i) !in nodes && i == |run.items| - 1
    {
      ItemStep(run, nodes, copies, i, view[i]);
    }
    CopiesRetained(run, nodes, copies, view);
    var last := |view| - 1;
    assert ItemIs(run, nodes, copies, last, view[last]);
  }
}
