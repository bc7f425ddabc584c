/**
 What holds over every run of racing record calls (packages/cli/src/review-records.ts:414-536,
 packages/cli/src/review-confirm-write.ts:98-159).
 */
module RecordRaces {
  import opened Foundations
  import opened RecordStore

  /** No call has begun; temporary names are not in use. */
  ghost predicate Fresh(s: State) {
    && (forall p :: 0 <= p < |s.calls| ==> s.calls[p].phase == Start && GoodTask(s.calls[p].task))
    && (forall id :: id in s.files ==> s.files[id].writer.None?)
    && (forall name :: name in s.dir && s.dir[name].LinkTo? ==> s.dir[name].file in s.files)
  }

  lemma FreshHolds(s: State)
    requires Fresh(s)
    ensures Holds(s)
  {
  }

  ghost predicate Next(s: State, s': State) {
    exists p :: Step(s, p, s')
  }

  /** Any processes, in any order, with any failures. */
  ghost predicate Run(run: seq<State>) {
    run != [] && Fresh(run[0]) && forall i :: 0 < i < |run| ==> Next(run[i - 1], run[i])
  }

  lemma {:induction false} RunHolds(run: seq<State>, i: nat)
    requires Run(run) && i < |run|
    ensures Holds(run[i])
  {
    hide Holds, Fresh, Step;
    if i == 0 {
      FreshHolds(run[0]);
    } else {
      RunHolds(run, i - 1);
      assert Next(run[i - 1], run[i]);
      var p :| Step(run[i - 1], p, run[i]);
      StepKeeps(run[i - 1], p, run[i]);
    }
  }

  // ---------------------------------------------------------------------
  // Nothing is overwritten
  // ---------------------------------------------------------------------

  /** A record keeps its entry and its bytes, or its own writer takes it back before reporting success. */
  lemma RecordStays(s: State, p: nat, s': State, name: Name)
    requires Holds(s) && Step(s, p, s') && name in s.dir && name.Record?
    ensures
      || (name in s'.dir && s'.dir[name] == s.dir[name] && ContentOf(s', name) == ContentOf(s, name))
      || (name !in s'.dir && s.calls[p].phase.Undoing? && s.dir[name].LinkTo? && WrittenBy(s, s.dir[name].file, p))
  {
    hide OneFileEach, CallHolds;
    StepFrame(s, p, s');
    assert CallHolds(s, p);
    if s.dir[name].LinkTo? {
      assert Settled(s, s.dir[name].file);
      if WrittenBy(s, s.dir[name].file, p) {
        OwnRecordStays(s, p, s', name);
      }
    }
  }

  lemma OwnRecordStays(s: State, p: nat, s': State, name: Name)
    requires Holds(s) && Step(s, p, s') && name in s.dir && name.Record? && s.dir[name].LinkTo?
    requires WrittenBy(s, s.dir[name].file, p)
    ensures
      || (name in s'.dir && s'.dir[name] == s.dir[name] && s'.files == s.files)
      || (name !in s'.dir && s.calls[p].phase.Undoing?)
  {
    hide OneFileEach;
    assert CallHolds(s, p);
    assert Settled(s, s.dir[name].file);
  }

  /** A name that leads to a file written by a call leads to all of the call's bytes. */
  ghost predicate Whole(s: State, name: Name) {
    && ContentOf(s, name).Some? && name in s.dir && s.dir[name].LinkTo? && s.dir[name].file in s.files
    && var writer := s.files[s.dir[name].file].writer;
       writer.Some? ==> writer.value < |s.calls| && ContentOf(s, name) == Some(s.calls[writer.value].task.bytes)
  }

  lemma VisibleIsWhole(s: State, name: Name)
    requires Holds(s) && name in s.dir && name.Record? && s.dir[name].LinkTo?
    ensures Whole(s, name)
  {
    hide OneFileEach, CallHolds;
    assert Settled(s, s.dir[name].file);
  }

  /** In every state of every run a record that can be seen is whole. */
  lemma SeenIsWhole(run: seq<State>, i: nat, name: Name)
    requires Run(run) && i < |run| && name in run[i].dir && name.Record? && run[i].dir[name].LinkTo?
    ensures Whole(run[i], name)
  {
    hide Holds, Whole;
    RunHolds(run, i);
    VisibleIsWhole(run[i], name);
  }

  /** The call has reported success, or is about to. */
  predicate Succeeded(call: Call, name: string) {
    call.phase == Done(Created(name)) || call.phase == Cleaning(Created(name))
  }

  /** A record nobody takes back: it was there before, or its call succeeded. */
  ghost predicate Kept(s: State, name: Name) {
    && name.Record? && name in s.dir
    && (s.dir[name].LinkTo? && s.dir[name].file in s.files && s.files[s.dir[name].file].writer.Some? ==>
          var p := s.files[s.dir[name].file].writer.value;
          p < |s.calls| && Succeeded(s.calls[p], name.text))
  }

  lemma KeptStays(s: State, p: nat, s': State, name: Name)
    requires Holds(s) && Step(s, p, s') && Kept(s, name)
    ensures Kept(s', name) && s'.dir[name] == s.dir[name] && ContentOf(s', name) == ContentOf(s, name)
  {
    hide OneFileEach, EntriesHold, CallHolds;
    RecordStays(s, p, s', name);
    StepFrame(s, p, s');
    if s.dir[name].LinkTo? {
      KeptFileStays(s, name);
      if WrittenBy(s, s.dir[name].file, p) {
        SuccessStays(s, p, s', name.text);
      }
    }
  }

  lemma KeptFileStays(s: State, name: Name)
    requires Holds(s) && Kept(s, name) && s.dir[name].LinkTo?
    ensures s.dir[name].file in s.files
  {
    assert Settled(s, s.dir[name].file);
  }

  lemma SuccessStays(s: State, p: nat, s': State, name: string)
    requires Holds(s) && Step(s, p, s') && Succeeded(s.calls[p], name)
    ensures Succeeded(s'.calls[p], name)
  {
    hide OneFileEach, EntriesHold;
  }

  /** Once there to stay, a record is there to stay in every later state, with the same bytes. */
  lemma {:induction false} KeptForever(run: seq<State>, i: nat, j: nat, name: Name)
    requires Run(run) && i <= j < |run| && Kept(run[i], name)
    ensures Kept(run[j], name) && run[j].dir[name] == run[i].dir[name] && ContentOf(run[j], name) == ContentOf(run[i], name)
    decreases j
  {
    hide Holds, Fresh, Step, Kept, ContentOf;
    if i < j {
      KeptForever(run, i, j - 1, name);
      RunHolds(run, j - 1);
      assert Next(run[j - 1], run[j]);
      var p :| Step(run[j - 1], p, run[j]);
      KeptStays(run[j - 1], p, run[j], name);
    }
  }

  /** A success names a record with exactly the bytes of its call, and it is there to stay. */
  lemma SuccessIsKept(s: State, p: nat, name: string)
    requires Holds(s) && p < |s.calls| && Succeeded(s.calls[p], name)
    ensures Kept(s, Record(name)) && ContentOf(s, Record(name)) == Some(s.calls[p].task.bytes)
    ensures s.dir[Record(name)].LinkTo? && WrittenBy(s, s.dir[Record(name)].file, p)
  {
    hide OneFileEach, EntriesHold;
    assert CallHolds(s, p);
    assert HasCreated(s, p, name);
    var id :| Owns(s, p, id, Record(name));
  }

  /** No two calls succeed with the same name. */
  lemma SuccessesDiffer(s: State, p: nat, q: nat, a: string, b: string)
    requires Holds(s) && p < |s.calls| && q < |s.calls| && p != q && Succeeded(s.calls[p], a) && Succeeded(s.calls[q], b)
    ensures a != b
  {
    hide Holds;
    SuccessIsKept(s, p, a);
    SuccessIsKept(s, q, b);
  }

  // ---------------------------------------------------------------------
  // Numbers without gaps
  // ---------------------------------------------------------------------

  /** Every call tries the same names in the same order, some perhaps fewer of them. */
  ghost predicate Numbered(s: State, names: seq<string>) {
    Distinct(names) && forall p :: 0 <= p < |s.calls| ==> s.calls[p].task.names <= names
  }

  predicate Taken(s: State, names: seq<string>, i: nat)
    requires i < |names|
  {
    Record(names[i]) in s.dir
  }

  /** Below a taken number every number is taken. */
  ghost predicate GapFree(s: State, names: seq<string>) {
    forall i, j :: 0 <= i < j < |names| && Taken(s, names, j) ==> Taken(s, names, i)
  }

  /** Whoever tries a number has seen all lower ones taken. */
  ghost predicate TriedInOrder(s: State, names: seq<string>) {
    forall p, i :: 0 <= p < |s.calls| && s.calls[p].phase.Linking? && 0 <= i < s.calls[p].phase.attempt && i < |names| ==>
      Taken(s, names, i)
  }

  /** No number is missing, and none can be left out by a call that is already past it. */
  ghost predicate InOrder(s: State, names: seq<string>) {
    Numbered(s, names) && GapFree(s, names) && TriedInOrder(s, names)
  }

  /** The call unlinks the record it has just linked. */
  ghost predicate TakesBack(s: State, p: nat, s': State, k: nat) {
    Step(s, p, s') && s.calls[p].phase.Undoing? && s.calls[p].phase.attempt == k && GoodStep(s, p, s')
  }

  /** Any step but taking a record back. */
  ghost predicate KeepingStep(s: State, p: nat, s': State) {
    Step(s, p, s') && (s.calls[p].phase.Undoing? ==> FaultStep(s, p, s'))
  }

  lemma TakenStays(s: State, p: nat, s': State, names: seq<string>, i: nat)
    requires Holds(s) && KeepingStep(s, p, s') && i < |names| && Taken(s, names, i)
    ensures Taken(s', names, i)
  {
    hide Holds;
    if s.calls[p].phase.Undoing? {
      assert s'.dir == s.dir;
    } else {
      RecordStays(s, p, s', Record(names[i]));
    }
  }

  /** The only new record is the number that was being tried. */
  lemma NewlyTaken(s: State, p: nat, s': State, names: seq<string>, i: nat)
    requires Step(s, p, s') && Numbered(s, names) && i < |names| && Taken(s', names, i) && !Taken(s, names, i)
    ensures s.calls[p].phase == Linking(s.calls[p].phase.file, i)
  {
    var names' := s.calls[p].task.names;
    assert s.calls[p].phase.Linking?;
    var attempt := s.calls[p].phase.attempt;
    assert names'[attempt] == names[attempt];
  }

  lemma TryStays(s: State, p: nat, s': State, names: seq<string>, q: nat, i: nat)
    requires Holds(s) && KeepingStep(s, p, s') && InOrder(s, names) && q < |s'.calls| && s'.calls[q].phase.Linking?
    requires i < s'.calls[q].phase.attempt && i < |names|
    ensures Taken(s', names, i)
  {
    hide Holds, GapFree;
    StepFrameOf(s, p, s');
    if q != p || (s.calls[p].phase.Linking? && i < s.calls[p].phase.attempt) {
      TakenStays(s, p, s', names, i);
    } else {
      LastTryFailed(s, p, s', names, i);
    }
  }

  lemma LastTryFailed(s: State, p: nat, s': State, names: seq<string>, i: nat)
    requires Step(s, p, s') && Numbered(s, names) && s'.calls[p].phase.Linking? && i < s'.calls[p].phase.attempt && i < |names|
    requires !(s.calls[p].phase.Linking? && i < s.calls[p].phase.attempt)
    ensures Taken(s', names, i)
  {
    assert s.calls[p].task.names <= names;
  }

  lemma StepFrameOf(s: State, p: nat, s': State)
    requires Holds(s) && Step(s, p, s')
    ensures p < |s.calls| == |s'.calls| && (forall q :: 0 <= q < |s.calls| ==> s'.calls[q].task == s.calls[q].task)
    ensures forall q :: 0 <= q < |s.calls| && q != p ==> s'.calls[q] == s.calls[q]
  {
    hide Holds, GoodStep, FaultStep;
    StepFrame(s, p, s');
  }

  lemma OrderStays(s: State, p: nat, s': State, names: seq<string>)
    requires Holds(s) && KeepingStep(s, p, s') && InOrder(s, names)
    ensures InOrder(s', names)
  {
    hide Holds, Step, GoodStep, FaultStep, Taken, Distinct;
    StepFrameOf(s, p, s');
    forall q, i | 0 <= q < |s'.calls| && s'.calls[q].phase.Linking? && 0 <= i < s'.calls[q].phase.attempt && i < |names|
      ensures Taken(s', names, i)
    {
      TryStays(s, p, s', names, q, i);
    }
    forall i, j | 0 <= i < j < |names| && Taken(s', names, j) ensures Taken(s', names, i) {
      if !Taken(s, names, j) {
        NewlyTaken(s, p, s', names, j);
      }
      TakenStays(s, p, s', names, i);
    }
  }

  ghost predicate KeepingNext(s: State, s': State) {
    exists p :: KeepingStep(s, p, s')
  }

  /** Whatever else happens, from one state to a later one no record is taken back. */
  ghost predicate Continues(s: State, later: seq<State>) {
    later != [] && later[0] == s && forall i :: 0 < i < |later| ==> KeepingNext(later[i - 1], later[i])
  }

  ghost predicate NeverGap(s: State, names: seq<string>) {
    forall later :: Continues(s, later) ==> GapFree(later[|later| - 1], names)
  }

  lemma {:induction false} OrderGoesOn(later: seq<State>, names: seq<string>)
    requires later != [] && Continues(later[0], later) && Holds(later[0]) && InOrder(later[0], names)
    ensures Holds(later[|later| - 1]) && InOrder(later[|later| - 1], names)
  {
    hide Holds, InOrder, KeepingStep, Step;
    var last := |later| - 1;
    if last > 0 {
      OrderGoesOn(later[..last], names);
      assert KeepingNext(later[last - 1], later[last]);
      var p :| KeepingStep(later[last - 1], p, later[last]);
      OrderStays(later[last - 1], p, later[last], names);
      KeepingHolds(later[last - 1], p, later[last]);
    }
  }

  lemma KeepingHolds(s: State, p: nat, s': State)
    requires Holds(s) && KeepingStep(s, p, s')
    ensures Holds(s')
  {
    hide Holds, Step, FaultStep;
    StepKeeps(s, p, s');
  }

  // ---------------------------------------------------------------------
  // Looks that succeed
  // ---------------------------------------------------------------------

  /** No call is taking its record back, since no look at a record has failed. */
  predicate NoUndo(s: State) {
    forall p :: 0 <= p < |s.calls| ==> !s.calls[p].phase.Undoing?
  }

  /** Any step but a failing look at the new record. */
  ghost predicate SureStep(s: State, p: nat, s': State) {
    Step(s, p, s') && (s.calls[p].phase.Linked? ==> GoodStep(s, p, s'))
  }

  lemma UndoIsNeedless(s: State, p: nat, s': State)
    requires Holds(s) && SureStep(s, p, s') && NoUndo(s)
    ensures NoUndo(s') && KeepingStep(s, p, s')
  {
    hide OneFileEach, EntriesHold;
    assert CallHolds(s, p);
  }

  ghost predicate SureNext(s: State, s': State) {
    exists p :: SureStep(s, p, s')
  }

  ghost predicate SureRun(run: seq<State>) {
    Run(run) && forall i :: 0 < i < |run| ==> SureNext(run[i - 1], run[i])
  }

  /** If no look at a new record fails, the taken numbers have no gap in any state. */
  lemma {:induction false} NumbersHaveNoGap(run: seq<State>, names: seq<string>, i: nat)
    requires SureRun(run) && i < |run| && Numbered(run[0], names) && GapFree(run[0], names)
    ensures InOrder(run[i], names) && NoUndo(run[i])
  {
    hide Holds, SureStep, GapFree, Numbered, Step;
    if i == 0 {
    } else {
      NumbersHaveNoGap(run, names, i - 1);
      RunHolds(run, i - 1);
      assert SureNext(run[i - 1], run[i]);
      var p :| SureStep(run[i - 1], p, run[i]);
      UndoIsNeedless(run[i - 1], p, run[i]);
      OrderStays(run[i - 1], p, run[i], names);
    }
  }

  // ---------------------------------------------------------------------
  // Taking a record back
  // ---------------------------------------------------------------------

  /** No higher number is taken, and no call is past this one. */
  ghost predicate NothingBeyond(s: State, names: seq<string>, k: nat) {
    && (forall j :: k < j < |names| ==> !Taken(s, names, j))
    && (forall q :: 0 <= q < |s.calls| && s.calls[q].phase.Linking? ==> s.calls[q].phase.attempt <= k)
  }

  lemma TakenBack(s: State, p: nat, s': State, names: seq<string>, k: nat)
    requires Holds(s) && TakesBack(s, p, s', k) && Numbered(s, names)
    ensures k < |names| && Taken(s, names, k) && !Taken(s', names, k) && Numbered(s', names)
    ensures forall j :: 0 <= j < |names| && j != k ==> Taken(s', names, j) == Taken(s, names, j)
    ensures |s'.calls| == |s.calls| && forall q :: 0 <= q < |s.calls| && q != p ==> s'.calls[q] == s.calls[q]
    ensures !s.calls[p].phase.Linking? && !s'.calls[p].phase.Linking?
  {
    hide OneFileEach, EntriesHold;
    assert CallHolds(s, p);
    assert s.calls[p].task.names <= names;
    assert s'.dir == s.dir - {Record(names[k])};
  }

  /** Taking a number back keeps the order exactly if nothing is beyond it. */
  lemma UndoKeepsOrder(s: State, p: nat, s': State, names: seq<string>, k: nat)
    requires Holds(s) && InOrder(s, names) && TakesBack(s, p, s', k)
    ensures InOrder(s', names) <==> NothingBeyond(s, names, k)
  {
    hide Holds, TakesBack, Taken, Numbered;
    TakenBack(s, p, s', names, k);
    if InOrder(s', names) {
      forall q | 0 <= q < |s.calls| && s.calls[q].phase.Linking? ensures s.calls[q].phase.attempt <= k {
        assert s'.calls[q] == s.calls[q];
      }
    }
  }

  /** A call that is past a free number can take the next one. */
  lemma StepsPast(s: State, names: seq<string>, k: nat, q: nat) returns (s': State)
    requires Numbered(s, names) && k < |names| && !Taken(s, names, k)
    requires q < |s.calls| && InRange(s.calls[q]) && GoodTask(s.calls[q].task)
    requires s.calls[q].phase.Linking? && s.calls[q].phase.attempt == k + 1
    requires k + 1 < |names| && !Taken(s, names, k + 1)
    ensures KeepingStep(s, q, s') && !GapFree(s', names)
  {
    var id, name := s.calls[q].phase.file, NameAt(s.calls[q].task, k + 1);
    assert s.calls[q].task.names <= names;
    s' := Moved(s.(dir := s.dir[name := LinkTo(id)]), q, Linked(id, k + 1));
    assert LinkStep(s, q, id, k + 1, s');
    assert Taken(s', names, k + 1) && !Taken(s', names, k);
  }

  /**
   Taking a record back leaves no gap, then or as long as no other record is taken back,
   exactly if no higher number is taken and no call has already gone past this one.
   */
  lemma UndoAndGaps(s: State, p: nat, s': State, names: seq<string>, k: nat)
    requires Holds(s) && InOrder(s, names) && TakesBack(s, p, s', k)
    ensures NeverGap(s', names) <==> NothingBeyond(s, names, k)
  {
    hide Holds, TakesBack, Numbered, Taken, KeepingStep;
    UndoHolds(s, p, s', k);
    TakenBack(s, p, s', names, k);
    if NothingBeyond(s, names, k) {
      UndoKeepsOrder(s, p, s', names, k);
      forall later | Continues(s', later) ensures GapFree(later[|later| - 1], names) {
        OrderGoesOn(later, names);
      }
    } else {
      GapComes(s, p, s', names, k);
    }
  }

  lemma UndoHolds(s: State, p: nat, s': State, k: nat)
    requires Holds(s) && TakesBack(s, p, s', k)
    ensures Holds(s')
  {
    hide Holds, Step, GoodStep;
    StepKeeps(s, p, s');
  }

  lemma GapComes(s: State, p: nat, s': State, names: seq<string>, k: nat)
    requires Holds(s) && Holds(s') && InOrder(s, names) && TakesBack(s, p, s', k) && !NothingBeyond(s, names, k)
    ensures !NeverGap(s', names)
  {
    hide Holds, TakesBack, Numbered, Taken, KeepingStep;
    TakenBack(s, p, s', names, k);
    if GapFree(s', names) {
      var q :| 0 <= q < |s.calls| && s.calls[q].phase.Linking? && s.calls[q].phase.attempt > k;
      CallIsReady(s', names, q);
      assert !Taken(s', names, k + 1) && !Taken(s, names, k + 1);
      var s'' := StepsPast(s', names, k, q);
      assert KeepingNext(s', s'');
      assert Continues(s', [s', s'']);
    } else {
      assert Continues(s', [s']);
    }
  }

  lemma CallIsReady(s: State, names: seq<string>, q: nat)
    requires Holds(s) && q < |s.calls| && s.calls[q].phase.Linking? && Numbered(s, names)
    ensures InRange(s.calls[q]) && GoodTask(s.calls[q].task) && s.calls[q].phase.attempt < |names|
  {
    hide OneFileEach, EntriesHold;
    assert CallHolds(s, q);
    assert s.calls[q].task.names <= names;
  }

  ghost predicate UndoIsLast(s: State, s': State, names: seq<string>) {
    forall p, k :: TakesBack(s, p, s', k) ==> NothingBeyond(s, names, k)
  }

  ghost predicate OnlyLastTakenBack(run: seq<State>, names: seq<string>) {
    forall i :: 0 < i < |run| ==> UndoIsLast(run[i - 1], run[i], names)
  }

  /** A run stays in order exactly if nothing is ever beyond a record that is taken back. */
  lemma RunInOrder(run: seq<State>, names: seq<string>)
    requires Run(run) && Numbered(run[0], names) && GapFree(run[0], names)
    ensures (forall i :: 0 <= i < |run| ==> InOrder(run[i], names)) <==> OnlyLastTakenBack(run, names)
  {
    hide Holds, InOrder, NothingBeyond, TakesBack, Step;
    if OnlyLastTakenBack(run, names) {
      forall i | 0 <= i < |run| ensures InOrder(run[i], names) {
        OrderThroughRun(run, names, i);
      }
    } else {
      var i :| 0 < i < |run| && !UndoIsLast(run[i - 1], run[i], names);
      var p, k :| TakesBack(run[i - 1], p, run[i], k) && !NothingBeyond(run[i - 1], names, k);
      RunHolds(run, i - 1);
      if InOrder(run[i - 1], names) {
        UndoKeepsOrder(run[i - 1], p, run[i], names, k);
      }
    }
  }

  lemma {:induction false} OrderThroughRun(run: seq<State>, names: seq<string>, i: nat)
    requires Run(run) && i < |run| && Numbered(run[0], names) && GapFree(run[0], names)
    requires OnlyLastTakenBack(run, names)
    ensures InOrder(run[i], names)
  {
    hide Holds, GapFree, Numbered, NothingBeyond, Step, GoodStep, FaultStep;
    if i > 0 {
      OrderThroughRun(run, names, i - 1);
      RunHolds(run, i - 1);
      assert Next(run[i - 1], run[i]);
      var p: nat :| Step(run[i - 1], p, run[i]);
      StepKindOf(run[i - 1], p, run[i]);
      if KeepingStep(run[i - 1], p, run[i]) {
        OrderStays(run[i - 1], p, run[i], names);
      } else {
        var k := run[i - 1].calls[p].phase.attempt;
        UndoKeepsOrder(run[i - 1], p, run[i], names, k);
      }
    }
  }

  lemma StepKindOf(s: State, p: nat, s': State)
    requires Step(s, p, s')
    ensures p < |s.calls|
    ensures KeepingStep(s, p, s') || (s.calls[p].phase.Undoing? && TakesBack(s, p, s', s.calls[p].phase.attempt))
  {
  }

  // ---------------------------------------------------------------------
  // The first confirmation wins
  // ---------------------------------------------------------------------

  /** All calls are for one target, which nobody has confirmed yet, and every one looks at it when it fails. */
  ghost predicate Race(s: State, target: string) {
    forall p :: 0 <= p < |s.calls| ==> s.calls[p].task.names == [target] && s.calls[p].task.looks
  }

  predicate HasWon(call: Call, target: string) {
    call.phase.Linked? || Succeeded(call, target)
  }

  /** Without a fault: only a taken target makes a call fail, and a failed call sees the bytes of the target. */
  predicate OnTrack(s: State, call: Call, target: string) {
    match call.phase
    case Start => true
    case Writing(_) => true
    case Ready(_) => true
    case Linking(_, attempt) => attempt == 0
    case Linked(_, attempt) => attempt == 0
    case Undoing(_, _) => false
    case Cleaning(outcome) => outcome == Created(target) || (outcome == WriteFailed && ContentOf(s, Record(target)).Some?)
    case Looking => ContentOf(s, Record(target)).Some?
    case Done(result) => result == Created(target) || (result.Saw? && result.content.Some? && result.content == ContentOf(s, Record(target)))
  }

  /** The target is there to stay, or belongs to a call that has linked it. */
  ghost predicate Racing(s: State, target: string) {
    && Race(s, target) && (forall p :: 0 <= p < |s.calls| ==> OnTrack(s, s.calls[p], target))
    && (Record(target) in s.dir ==> s.dir[Record(target)].LinkTo?)
  }

  ghost predicate FaultlessStep(s: State, p: nat, s': State) {
    Step(s, p, s') && GoodStep(s, p, s')
  }

  ghost predicate GoodNext(s: State, s': State) {
    exists p :: FaultlessStep(s, p, s')
  }

  /** A run without any fault. */
  ghost predicate FaultlessRun(run: seq<State>) {
    Run(run) && forall i :: 0 < i < |run| ==> GoodNext(run[i - 1], run[i])
  }

  lemma TargetStays(s: State, p: nat, s': State, target: string)
    requires Holds(s) && Step(s, p, s') && Racing(s, target)
    ensures ContentOf(s, Record(target)).Some? ==> ContentOf(s', Record(target)) == ContentOf(s, Record(target))
  {
    hide Holds, Step, ContentOf;
    StepFrameOf(s, p, s');
    if ContentOf(s, Record(target)).Some? {
      SeenIsThere(s, Record(target));
      RecordStays(s, p, s', Record(target));
      assert OnTrack(s, s.calls[p], target);
    }
  }

  lemma SeenIsThere(s: State, name: Name)
    requires ContentOf(s, name).Some?
    ensures name in s.dir
  {
  }

  /** The step of the process itself. */
  lemma OwnTrack(s: State, p: nat, s': State, target: string)
    requires Holds(s) && FaultlessStep(s, p, s') && Racing(s, target)
    ensures OnTrack(s', s'.calls[p], target)
    ensures Record(target) in s'.dir ==> s'.dir[Record(target)].LinkTo?
  {
    hide OneFileEach;
    assert CallHolds(s, p);
    assert OnTrack(s, s.calls[p], target);
    if Record(target) in s.dir {
      VisibleIsWhole(s, Record(target));
    }
    TargetStays(s, p, s', target);
  }

  lemma RacingStays(s: State, p: nat, s': State, target: string)
    requires Holds(s) && FaultlessStep(s, p, s') && Racing(s, target)
    ensures Racing(s', target)
  {
    hide Holds, Step, GoodStep, ContentOf;
    StepFrameOf(s, p, s');
    TargetStays(s, p, s', target);
    OwnTrack(s, p, s', target);
    forall q | 0 <= q < |s'.calls| ensures OnTrack(s', s'.calls[q], target) {
      assert OnTrack(s, s.calls[q], target);
    }
  }

  lemma {:induction false} RaceRuns(run: seq<State>, target: string, i: nat)
    requires FaultlessRun(run) && i < |run| && Racing(run[0], target)
    ensures Racing(run[i], target)
  {
    hide Holds, Racing, FaultlessStep;
    if i > 0 {
      RaceRuns(run, target, i - 1);
      RunHolds(run, i - 1);
      assert GoodNext(run[i - 1], run[i]);
      var p :| FaultlessStep(run[i - 1], p, run[i]);
      RacingStays(run[i - 1], p, run[i], target);
    }
  }

  /** The target belongs to a call that has linked it and will succeed. */
  ghost predicate WonBy(s: State, target: string, w: nat) {
    && Record(target) in s.dir && s.dir[Record(target)].LinkTo?
    && WrittenBy(s, s.dir[Record(target)].file, w) && w < |s.calls| && HasWon(s.calls[w], target)
  }

  ghost predicate OpenOrWon(s: State, target: string) {
    Record(target) in s.dir ==> exists w :: WonBy(s, target, w)
  }

  lemma WonStays(s: State, p: nat, s': State, target: string, w: nat)
    requires Holds(s) && FaultlessStep(s, p, s') && Racing(s, target) && WonBy(s, target, w)
    ensures WonBy(s', target, w)
  {
    hide OneFileEach, EntriesHold;
    assert CallHolds(s, p);
    assert OnTrack(s, s.calls[p], target);
    StepFrameOf(s, p, s');
    RecordStays(s, p, s', Record(target));
    FilesStay(s, p, s', s.dir[Record(target)].file);
  }

  lemma FilesStay(s: State, p: nat, s': State, id: nat)
    requires Holds(s) && Step(s, p, s') && id in s.files
    ensures id in s'.files && s'.files[id].writer == s.files[id].writer
  {
    hide Holds, Step;
    StepFrame(s, p, s');
  }

  lemma NewlyWon(s: State, p: nat, s': State, target: string)
    requires Holds(s) && FaultlessStep(s, p, s') && Racing(s, target)
    requires Record(target) !in s.dir && Record(target) in s'.dir
    ensures WonBy(s', target, p)
  {
    hide OneFileEach, EntriesHold;
    assert CallHolds(s, p);
    assert OnTrack(s, s.calls[p], target);
  }

  lemma {:induction false} RaceIsWon(run: seq<State>, target: string, i: nat)
    requires FaultlessRun(run) && i < |run| && Racing(run[0], target) && Record(target) !in run[0].dir
    ensures OpenOrWon(run[i], target)
  {
    hide Holds, Racing, FaultlessStep, WonBy;
    if i > 0 {
      RaceIsWon(run, target, i - 1);
      RunHolds(run, i - 1);
      RaceRuns(run, target, i - 1);
      assert GoodNext(run[i - 1], run[i]);
      var p :| FaultlessStep(run[i - 1], p, run[i]);
      if Record(target) in run[i].dir {
        if Record(target) in run[i - 1].dir {
          var w: nat :| WonBy(run[i - 1], target, w);
          WonStays(run[i - 1], p, run[i], target, w);
        } else {
          NewlyWon(run[i - 1], p, run[i], target);
        }
      }
    }
  }

  predicate AllDone(s: State) {
    forall p :: 0 <= p < |s.calls| ==> s.calls[p].phase.Done?
  }

  /** One call created the target; all others saw exactly its bytes. */
  ghost predicate OneWinner(s: State, target: string, w: nat) {
    && w < |s.calls| && s.calls[w].phase == Done(Created(target))
    && forall q :: 0 <= q < |s.calls| && q != w ==> s.calls[q].phase == Done(Saw(Some(s.calls[w].task.bytes)))
  }

  lemma EndOfRace(s: State, target: string)
    requires Holds(s) && Racing(s, target) && OpenOrWon(s, target) && AllDone(s) && |s.calls| > 0
    ensures exists w :: OneWinner(s, target, w)
  {
    hide Holds, ContentOf;
    assert OnTrack(s, s.calls[0], target) && s.calls[0].phase.Done?;
    if s.calls[0].phase == Done(Created(target)) {
      SuccessIsKept(s, 0, target);
    } else {
      SeenIsThere(s, Record(target));
    }
    assert Record(target) in s.dir;
    var w: nat :| WonBy(s, target, w);
    assert s.calls[w].phase.Done?;
    SuccessIsKept(s, w, target);
    forall q | 0 <= q < |s.calls| && q != w ensures s.calls[q].phase == Done(Saw(Some(s.calls[w].task.bytes))) {
      assert OnTrack(s, s.calls[q], target);
      if Succeeded(s.calls[q], target) {
        SuccessesDiffer(s, w, q, target, target);
      }
    }
    assert OneWinner(s, target, w);
  }

  // ---------------------------------------------------------------------
  // Confirmations
  // ---------------------------------------------------------------------

  /** What a stored confirmation says. */
  datatype Confirmation = Confirmation(fingerprint: string, deferred: seq<string>)

  datatype Answer =
    | Written
    | Exists(deferred: seq<string>)
    | Collision
    | NotWritten
    | PathUnsafe

  /** writeConfirmationRecord's decision behind the exclusive write. */
  function AnswerOf(read: Bytes -> Option<Confirmation>, fingerprint: string, result: Result): Answer {
    match result
    case Created(_) => Written
    case Unsafe => PathUnsafe
    case WriteFailed => NotWritten
    case Saw(content) =>
      if content.Some? && read(content.value).Some? && read(content.value).value.fingerprint == fingerprint
      then Exists(read(content.value).value.deferred)
      else Collision
  }

  /** Each call writes a confirmation that can be read again. */
  ghost predicate Confirms(s: State, read: Bytes -> Option<Confirmation>, asked: seq<Confirmation>) {
    |asked| == |s.calls| && forall p :: 0 <= p < |s.calls| ==> read(s.calls[p].task.bytes) == Some(asked[p])
  }

  lemma {:induction false} TasksStay(run: seq<State>, i: nat)
    requires Run(run) && i < |run|
    ensures |run[i].calls| == |run[0].calls|
    ensures forall p :: 0 <= p < |run[0].calls| ==> run[i].calls[p].task == run[0].calls[p].task
  {
    hide Holds, Fresh, Step;
    if i > 0 {
      TasksStay(run, i - 1);
      RunHolds(run, i - 1);
      assert Next(run[i - 1], run[i]);
      var p :| Step(run[i - 1], p, run[i]);
      StepFrameOf(run[i - 1], p, run[i]);
    }
  }

  lemma FreshIsRacing(s: State, target: string)
    requires Fresh(s) && Race(s, target) && Record(target) !in s.dir
    ensures Racing(s, target)
  {
  }

  function End(run: seq<State>): State
    requires run != []
  {
    run[|run| - 1]
  }

  /**
   Without a fault, when all calls for one target have answered: exactly one has written; the
   same fingerprint gets the winner's deferred list, another one a collision.
   */
  lemma FirstConfirmationWins(run: seq<State>, target: string, read: Bytes -> Option<Confirmation>, asked: seq<Confirmation>)
    requires FaultlessRun(run) && Race(run[0], target) && Record(target) !in run[0].dir
    requires Confirms(run[0], read, asked) && |asked| > 0 && AllDone(End(run))
    ensures exists w :: Wins(End(run), read, asked, w)
  {
    hide Holds, Racing, FaultlessStep, OpenOrWon, Step, Fresh, ContentOf;
    var last := |run| - 1;
    FreshIsRacing(run[0], target);
    RunHolds(run, last);
    RaceRuns(run, target, last);
    RaceIsWon(run, target, last);
    TasksStay(run, last);
    EndOfRace(run[last], target);
    var w: nat :| OneWinner(run[last], target, w);
    assert Wins(run[last], read, asked, w);
  }

  /** The answers when call w was first. */
  ghost predicate Wins(s: State, read: Bytes -> Option<Confirmation>, asked: seq<Confirmation>, w: nat) {
    && w < |asked| == |s.calls| && AllDone(s)
    && AnswerOf(read, asked[w].fingerprint, s.calls[w].phase.result) == Written
    && forall q :: 0 <= q < |asked| && q != w ==>
         AnswerOf(read, asked[q].fingerprint, s.calls[q].phase.result) ==
           if asked[q].fingerprint == asked[w].fingerprint then Exists(asked[w].deferred) else Collision
  }

  /** A target that is there already is never written; every call sees the same old bytes. */
  lemma LaterConfirmationsLose(run: seq<State>, target: string, i: nat, p: nat)
    requires FaultlessRun(run) && i < |run| && Racing(run[0], target) && ContentOf(run[0], Record(target)).Some?
    requires p < |run[i].calls| && run[i].calls[p].phase.Done?
    ensures run[i].calls[p].phase.result == Saw(ContentOf(run[0], Record(target)))
  {
    hide Holds, Fresh, FaultlessStep, ContentOf;
    RaceRuns(run, target, i);
    RunHolds(run, i);
    OldTarget(run, target, i);
    assert OnTrack(run[i], run[i].calls[p], target);
    if Succeeded(run[i].calls[p], target) {
      SuccessIsKept(run[i], p, target);
    }
  }

  lemma {:induction false} OldTarget(run: seq<State>, target: string, i: nat)
    requires FaultlessRun(run) && i < |run| && Racing(run[0], target) && ContentOf(run[0], Record(target)).Some?
    ensures ContentOf(run[i], Record(target)) == ContentOf(run[0], Record(target)) && NoWriter(run[i], Record(target))
  {
    hide Holds, FaultlessStep, Racing;
    if i == 0 {
      assert Fresh(run[0]);
    } else {
      OldTarget(run, target, i - 1);
      RunHolds(run, i - 1);
      RaceRuns(run, target, i - 1);
      assert GoodNext(run[i - 1], run[i]);
      var p :| FaultlessStep(run[i - 1], p, run[i]);
      OldTargetStays(run[i - 1], p, run[i], target);
    }
  }

  predicate NoWriter(s: State, name: Name) {
    name in s.dir && s.dir[name].LinkTo? && s.dir[name].file in s.files && s.files[s.dir[name].file].writer.None?
  }

  lemma OldTargetStays(s: State, p: nat, s': State, target: string)
    requires Holds(s) && FaultlessStep(s, p, s') && NoWriter(s, Record(target))
    ensures NoWriter(s', Record(target)) && ContentOf(s', Record(target)) == ContentOf(s, Record(target))
  {
    hide Holds, GoodStep, FaultStep;
    RecordStays(s, p, s', Record(target));
    FilesStay(s, p, s', s.dir[Record(target)].file);
  }
}
