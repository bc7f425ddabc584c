/**
 What a mutation run promises about the target tree at every instant, and the
 per-effect bookkeeping from which the executors establish it.
 */
module MutationRun {
  import opened Foundations
  import opened MutationModel
  import opened MutationStore

  /** One planned effect with its resolved stage directory, contents and mode. */
  datatype Item = Item(path: Path, stage: Path, removes: bool, bytes: Bytes, mode: Mode)

  /** The planned items in order, commit marker last, and the tree the run started from. */
  datatype Run = Run(items: seq<Item>, before: Nodes)

  function Target(run: Run, i: nat): Place
    requires i < |run.items|
  {
    Managed(run.items[i].path)
  }

  function InStage(run: Run, i: nat, slot: SlotName): Place
    requires i < |run.items|
  {
    Staged(run.items[i].stage, slot)
  }

  ghost predicate SameAt(a: Nodes, b: Nodes, place: Place) {
    (place in a <==> place in b) && (place in a ==> a[place] == b[place])
  }

  /** Equal contents: identities may differ only between regular files. */
  predicate SameNode(a: Node, b: Node) {
    match a
    case RegularFile(_, bytes, mode) => b.RegularFile? && b.bytes == bytes && b.mode == mode
    case _ => a == b
  }

  ghost predicate HasContent(nodes: Nodes, place: Place, bytes: Bytes, mode: Mode) {
    place in nodes && nodes[place].RegularFile? && nodes[place].bytes == bytes && nodes[place].mode == mode
  }

  ghost predicate AtInitial(run: Run, nodes: Nodes, i: nat)
    requires i < |run.items|
  {
    var target := Target(run, i);
    (target in run.before <==> target in nodes) &&
    (target in nodes ==> SameNode(run.before[target], nodes[target]))
  }

  ghost predicate AtPlanned(run: Run, nodes: Nodes, i: nat)
    requires i < |run.items|
  {
    if run.items[i].removes then Target(run, i) !in nodes
    else HasContent(nodes, Target(run, i), run.items[i].bytes, run.items[i].mode)
  }

  ghost predicate AllInitial(run: Run, nodes: Nodes) {
    forall i: nat :: i < |run.items| ==> AtInitial(run, nodes, i)
  }

  ghost predicate AllPlanned(run: Run, nodes: Nodes) {
    forall i: nat :: i < |run.items| ==> AtPlanned(run, nodes, i)
  }

  /** A file that existed has a copy of its original contents and mode in its stage. */
  ghost predicate CopyKept(run: Run, nodes: Nodes, i: nat)
    requires i < |run.items|
  {
    var target := Target(run, i);
    target in run.before && run.before[target].RegularFile? ==>
      HasContent(nodes, InStage(run, i, Original), run.before[target].bytes, run.before[target].mode)
  }

  ghost predicate NewMarkerInPlace(run: Run, nodes: Nodes, copy: Option<Identity>)
    requires run.items != []
  {
    var target := Target(run, |run.items| - 1);
    copy.Some? && target in nodes && nodes[target].identity == copy.value
  }

  /** Until its new copy exists the marker is untouched; a marker that is not the initial one is that copy. */
  ghost predicate MarkerKnown(run: Run, nodes: Nodes, copy: Option<Identity>)
    requires run.items != []
  {
    var last := |run.items| - 1;
    && (copy.None? ==> SameAt(run.before, nodes, Target(run, last)))
    && (Target(run, last) in nodes && !AtInitial(run, nodes, last) ==> NewMarkerInPlace(run, nodes, copy))
  }

  // ---------------------------------------------------------------------
  // The promise at every instant
  // ---------------------------------------------------------------------

  /**
   No destination is ever torn: each holds its initial or its planned state,
   except the commit marker once the run has started to remove it. A settled tree
   is entirely one or the other. Until then every changed destination that was a
   file can be restored from its stage. The marker's new copy is in place only
   beside a complete new tree, or after its removal is known to have failed; and
   nothing but that copy is ever in place of the initial marker.
   */
  ghost predicate StepOk(run: Run, s: Snapshot)
    requires run.items != []
  {
    && (forall i: nat :: i < |run.items| ==>
          || AtInitial(run, s.nodes, i) || AtPlanned(run, s.nodes, i)
          || (s.flags.voided && i == |run.items| - 1 && Target(run, i) !in s.nodes))
    && (s.flags.settled ==> AllInitial(run, s.nodes) || AllPlanned(run, s.nodes))
    && (!s.flags.settled ==> forall i: nat :: i < |run.items| ==>
          SameAt(run.before, s.nodes, Target(run, i)) || CopyKept(run, s.nodes, i))
    && (NewMarkerInPlace(run, s.nodes, s.flags.copy) && !s.flags.stuck ==> AllPlanned(run, s.nodes))
    && MarkerKnown(run, s.nodes, s.flags.copy)
  }

  /** Every state so far kept the promise, and what it knew is still known. */
  ghost predicate TraceOk(run: Run, trace: seq<Snapshot>, flags: Flags)
    requires run.items != []
  {
    forall s <- trace :: StepOk(run, s) && LedTo(s.flags, flags)
  }

  // ---------------------------------------------------------------------
  // Bookkeeping: which side of its change each effect is on
  // ---------------------------------------------------------------------

  /**
   Idle: destination untouched, nothing promised about the stage.
   Ready: destination untouched, stage complete.
   Changed: the planned state is in place.  Restored: the initial state is back.
   Void: the destination was removed and is absent.
   */
  datatype Side = Idle | Ready | Changed | Restored | Void

  ghost predicate ItemIs(run: Run, nodes: Nodes, copies: seq<Identity>, i: nat, side: Side)
    requires i < |run.items| == |copies|
  {
    var item, target := run.items[i], Target(run, i);
    match side
    case Idle => SameAt(run.before, nodes, target)
    case Ready =>
      && SameAt(run.before, nodes, target)
      && CopyKept(run, nodes, i)
      && (!item.removes ==> InStage(run, i, New) in nodes &&
                            nodes[InStage(run, i, New)] == RegularFile(copies[i], item.bytes, item.mode))
    case Changed =>
      && CopyKept(run, nodes, i)
      && (if item.removes then target !in nodes
          else target in nodes && nodes[target] == RegularFile(copies[i], item.bytes, item.mode))
    case Restored =>
      && CopyKept(run, nodes, i)
      && AtInitial(run, nodes, i)
      && (target in nodes ==> nodes[target].identity != copies[i])
    case Void => CopyKept(run, nodes, i) && target !in nodes
  }

  ghost predicate Holds(run: Run, nodes: Nodes, copies: seq<Identity>, view: seq<Side>) {
    |view| == |copies| == |run.items| &&
    forall i: nat :: i < |view| ==> ItemIs(run, nodes, copies, i, view[i])
  }

  /** Destinations are files or absent, and paths and stages are pairwise distinct. */
  ghost predicate WellLaidOut(run: Run) {
    && run.items != []
    && (forall i, j :: 0 <= i < j < |run.items| ==>
          run.items[i].path != run.items[j].path && run.items[i].stage != run.items[j].stage)
    && (forall i: nat :: i < |run.items| && Target(run, i) in run.before ==>
          run.before[Target(run, i)].RegularFile?)
    && !run.items[|run.items| - 1].removes
  }

  /** Staged copies are newer than every node of the initial tree. */
  ghost predicate FreshCopies(run: Run, copies: seq<Identity>) {
    |copies| == |run.items| &&
    forall i: nat :: i < |copies| ==> forall place <- run.before :: run.before[place].identity < copies[i]
  }

  predicate PlaceOf(run: Run, i: nat, place: Place)
    requires i < |run.items|
  {
    match place
    case Managed(path) => path == run.items[i].path
    case Stage(path) => path == run.items[i].stage
    case Staged(stage, _) => stage == run.items[i].stage
  }

  /** An operation confined to one effect's places moves only that effect. */
  lemma Focus(run: Run, before: Nodes, after: Nodes, copies: seq<Identity>, view: seq<Side>, k: nat, side: Side)
    requires WellLaidOut(run) && Holds(run, before, copies, view) && k < |view|
    requires forall place: Place :: !PlaceOf(run, k, place) ==> SameAt(before, after, place)
    requires ItemIs(run, after, copies, k, side)
    ensures Holds(run, after, copies, view[k := side])
  {
    forall i: nat | i < |view| && i != k
      ensures ItemIs(run, after, copies, i, view[i])
    {
      assert SameAt(before, after, Target(run, i)) by { assert !PlaceOf(run, k, Target(run, i)); }
      assert SameAt(before, after, InStage(run, i, Original)) by { assert !PlaceOf(run, k, InStage(run, i, Original)); }
      assert SameAt(before, after, InStage(run, i, New)) by { assert !PlaceOf(run, k, InStage(run, i, New)); }
    }
  }

  ghost predicate ViewOk(run: Run, copies: seq<Identity>, view: seq<Side>, flags: Flags)
    requires run.items != [] && |copies| == |view| == |run.items|
  {
    var last := |view| - 1;
    && !flags.settled
    && (forall i :: 0 <= i < |view| && view[i] == Void ==> i == last && flags.voided)
    && (flags.copy.Some? ==>
          forall place <- run.before :: run.before[place].identity < flags.copy.value)
    && (view[last] != Idle ==> flags.copy == Some(copies[last]))
    && (flags.copy.Some? && view[last] == Changed && !flags.stuck ==>
          forall i :: 0 <= i < last ==> view[i] == Changed)
  }

  lemma ItemStep(run: Run, nodes: Nodes, copies: seq<Identity>, i: nat, side: Side)
    requires WellLaidOut(run) && i < |run.items| == |copies| && ItemIs(run, nodes, copies, i, side)
    ensures side == Idle || side == Ready || side == Restored ==> AtInitial(run, nodes, i)
    ensures side == Changed ==> AtPlanned(run, nodes, i)
    ensures side == Void ==> Target(run, i) !in nodes
    ensures SameAt(run.before, nodes, Target(run, i)) || CopyKept(run, nodes, i)
  {
  }

  /** A consistent view satisfies the promise. */
  lemma ViewStep(run: Run, nodes: Nodes, copies: seq<Identity>, view: seq<Side>, flags: Flags)
    requires WellLaidOut(run) && Holds(run, nodes, copies, view)
    requires ViewOk(run, copies, view, flags)
    ensures StepOk(run, Snapshot(nodes, flags))
  {
    forall i: nat | i < |run.items|
      ensures view[i] == Idle || view[i] == Ready || view[i] == Restored ==> AtInitial(run, nodes, i)
      ensures view[i] == Changed ==> AtPlanned(run, nodes, i)
      ensures view[i] == Void ==> Target(run, i) !in nodes
      ensures SameAt(run.before, nodes, Target(run, i)) || CopyKept(run, nodes, i)
    {
      ItemStep(run, nodes, copies, i, view[i]);
    }
    var last := |view| - 1;
    if NewMarkerInPlace(run, nodes, flags.copy) && !flags.stuck {
      assert ItemIs(run, nodes, copies, last, view[last]);
      assert view[last] == Changed;
    }
  }

  lemma TraceExtends(run: Run, trace: seq<Snapshot>, s: Snapshot)
    requires run.items != [] && TraceOk(run, trace, s.flags) && StepOk(run, s)
    ensures TraceOk(run, trace + [s], s.flags)
  {
  }

  lemma TraceLater(run: Run, trace: seq<Snapshot>, earlier: Flags, later: Flags)
    requires run.items != [] && TraceOk(run, trace, earlier) && LedTo(earlier, later)
    ensures TraceOk(run, trace, later)
  {
    hide StepOk;
  }
}
