/**
 createNewRecord and writeConfirmationRecord as they run, one operation of the file system after
 the other, with other processes in between (packages/cli/src/review-records.ts:432-536,
 packages/cli/src/review-confirm-write.ts:104-159). Whatever happens is a run of the machine.
 */
module RecordCalls {
  import opened Foundations
  import opened RecordStore
  import opened RecordRaces

  lemma RunGrows(run: seq<State>, p: nat, s': State)
    requires Run(run) && Step(run[|run| - 1], p, s')
    ensures Run(run + [s'])
  {
    hide Fresh, Step;
    var longer := run + [s'];
    assert Next(run[|run| - 1], s');
    forall i | 0 < i < |longer| ensures Next(longer[i - 1], longer[i]) {
      if i < |run| {
        assert Next(run[i - 1], run[i]);
      }
    }
  }

  datatype LinkCode = LinkMade | NameTaken | LinkFailed

  class Directory {
    var state: State
    ghost var run: seq<State>

    ghost predicate Valid()
      reads this
    {
      Run(run) && state == run[|run| - 1]
    }

    /** The call is one of ours and in this phase; it can go on. */
    ghost predicate Stands(p: nat, phase: Phase)
      reads this
    {
      Valid() && p < |state.calls| && state.calls[p].phase == phase
    }

    constructor (start: State)
      requires Fresh(start)
      ensures Valid() && state == start && run == [start]
    {
      state, run := start, [start];
    }

    lemma CanStep(p: nat)
      requires Valid() && p < |state.calls|
      ensures GoodTask(state.calls[p].task) && InRange(state.calls[p]) && CallHolds(state, p)
    {
      hide CallHolds, Fresh, Step, OneFileEach, EntriesHold;
      RunHolds(run, |run| - 1);
      HoldsCall(state, p);
    }

    /** The state after one step of a call. */
    method Take(p: nat, next: State)
      requires Valid() && Step(state, p, next)
      modifies this
      ensures Valid() && state == next && run == old(run) + [next]
      ensures OthersStand(old(state), state, p)
    {
      hide Step, Fresh;
      RunGrows(run, p, next);
      RunHolds(run, |run| - 1);
      StepFrameOf(state, p, next);
      state := next;
      run := run + [next];
    }

    /** `open` with O_EXCL, under a name nobody else uses. */
    method OpenTemp(p: nat) returns (ok: bool)
      requires Stands(p, Start)
      modifies this
      ensures Valid() && old(run) < run && OthersStand(old(state), state, p)
      ensures if ok then state.calls[p].phase.Writing? else state.calls[p].phase == AfterCleaning(state.calls[p].task, WriteFailed)
    {
      CanStep(p);
      var id: int := *;
      ok := *;
      if ok && 0 <= id && id !in state.files {
        var next := Moved(state.(dir := state.dir[Temp(p) := LinkTo(id)], files := state.files[id := File([], Some(p))]), p, Writing(id));
        assert Opens(state, p, next);
        Take(p, next);
      } else {
        ok := false;
        Take(p, Moved(state, p, AfterCleaning(state.calls[p].task, WriteFailed)));
      }
    }

    /** Any start of the bytes may get written before the rest, or before a failure. */
    method WritePart(p: nat, size: nat)
      requires Valid() && p < |state.calls| && state.calls[p].phase.Writing? && size <= |state.calls[p].task.bytes|
      modifies this
      ensures Valid() && old(run) < run && OthersStand(old(state), state, p)
      ensures state.calls[p] == old(state.calls[p])
      ensures ContentWritten(state, p, size)
    {
      CanStep(p);
      var id := state.calls[p].phase.file;
      var next := state.(files := state.files[id := state.files[id].(content := state.calls[p].task.bytes[..size])]);
      assert HasWritten(state, p, id, size, next);
      Take(p, next);
    }

    /** writeFile, sync and stat. */
    method WriteAll(p: nat) returns (ok: bool)
      requires Valid() && p < |state.calls| && state.calls[p].phase.Writing?
      modifies this
      ensures Valid() && old(run) < run && OthersStand(old(state), state, p)
      ensures if ok then state.calls[p].phase.Ready? else state.calls[p].phase == Cleaning(WriteFailed)
    {
      var size: int := *;
      if 0 <= size <= |state.calls[p].task.bytes| {
        WritePart(p, size);
      }
      ok := *;
      if ok {
        WritePart(p, |state.calls[p].task.bytes|);
        CanStep(p);
        Take(p, Moved(state, p, Ready(state.calls[p].phase.file)));
      } else {
        CanStep(p);
        Take(p, Moved(state, p, Cleaning(WriteFailed)));
      }
    }

    /** The identity of the records directory, checked once more before the first link. */
    method CheckDirectory(p: nat) returns (ok: bool)
      requires Valid() && p < |state.calls| && state.calls[p].phase.Ready?
      modifies this
      ensures Valid() && old(run) < run && OthersStand(old(state), state, p)
      ensures if ok then state.calls[p].phase == Linking(old(state.calls[p].phase.file), 0) else state.calls[p].phase == Cleaning(Unsafe)
    {
      CanStep(p);
      ok := *;
      Take(p, Moved(state, p, if ok then Linking(state.calls[p].phase.file, 0) else Cleaning(Unsafe)));
    }

    /** `link` never replaces a name; a taken name leads to the next attempt, if there is one. */
    method Link(p: nat) returns (code: LinkCode)
      requires Valid() && p < |state.calls| && state.calls[p].phase.Linking?
      modifies this
      ensures Valid() && old(run) < run && OthersStand(old(state), state, p)
      ensures var attempt := old(state.calls[p].phase.attempt);
        && attempt < |state.calls[p].task.names|
        && match code
           case LinkMade => state.calls[p].phase.Linked? && state.calls[p].phase.attempt == attempt
           case NameTaken =>
             if attempt + 1 < |state.calls[p].task.names|
             then state.calls[p].phase.Linking? && state.calls[p].phase.attempt == attempt + 1
             else state.calls[p].phase == Cleaning(WriteFailed)
           case LinkFailed => state.calls[p].phase == Cleaning(WriteFailed)
    {
      CanStep(p);
      var id, attempt := state.calls[p].phase.file, state.calls[p].phase.attempt;
      var name := NameAt(state.calls[p].task, attempt);
      var ok: bool := *;
      if !ok {
        code := LinkFailed;
        Take(p, Moved(state, p, Cleaning(WriteFailed)));
      } else if name !in state.dir {
        code := LinkMade;
        Take(p, Moved(state.(dir := state.dir[name := LinkTo(id)]), p, Linked(id, attempt)));
      } else {
        code := NameTaken;
        Take(p, Moved(state, p, if attempt + 1 < |state.calls[p].task.names| then Linking(id, attempt + 1) else Cleaning(WriteFailed)));
      }
    }

    /** `lstat` of the new record: it must be the file that was written. */
    method LookAtRecord(p: nat) returns (same: bool)
      requires Valid() && p < |state.calls| && state.calls[p].phase.Linked?
      modifies this
      ensures Valid() && old(run) < run && OthersStand(old(state), state, p)
      ensures var attempt := old(state.calls[p].phase.attempt);
        && attempt < |state.calls[p].task.names|
        && if same then state.calls[p].phase == Cleaning(Created(state.calls[p].task.names[attempt]))
           else state.calls[p].phase == Undoing(old(state.calls[p].phase.file), attempt)
    {
      CanStep(p);
      var id, attempt := state.calls[p].phase.file, state.calls[p].phase.attempt;
      var name := NameAt(state.calls[p].task, attempt);
      same := *;
      same := same && name in state.dir && state.dir[name] == LinkTo(id);
      Take(p, Moved(state, p, if same then Cleaning(Created(name.text)) else Undoing(id, attempt)));
    }

    /** The record that could not be confirmed is unlinked; a failure to do so is ignored. */
    method UnlinkRecord(p: nat)
      requires Valid() && p < |state.calls| && state.calls[p].phase.Undoing?
      modifies this
      ensures Valid() && old(run) < run && OthersStand(old(state), state, p)
      ensures state.calls[p].phase == Cleaning(WriteFailed)
    {
      CanStep(p);
      var name := NameAt(state.calls[p].task, state.calls[p].phase.attempt);
      var ok: bool := *;
      Take(p, Moved(if ok then state.(dir := state.dir - {name}) else state, p, Cleaning(WriteFailed)));
    }

    /** The temporary name goes on every path; a failure to remove it is ignored. */
    method UnlinkTemp(p: nat)
      requires Valid() && p < |state.calls| && state.calls[p].phase.Cleaning?
      modifies this
      ensures Valid() && old(run) < run && OthersStand(old(state), state, p)
      ensures state.calls[p].phase == AfterCleaning(state.calls[p].task, old(state.calls[p].phase.outcome))
    {
      CanStep(p);
      var next := AfterCleaning(state.calls[p].task, state.calls[p].phase.outcome);
      var ok: bool := *;
      Take(p, Moved(if ok then state.(dir := state.dir - {Temp(p)}) else state, p, next));
    }

    /** The target of a failed confirmation: is it there, and what does it hold? */
    method LookAtTarget(p: nat) returns (result: Result)
      requires Stands(p, Looking)
      modifies this
      ensures Valid() && old(run) < run && OthersStand(old(state), state, p)
      ensures state.calls[p].phase == Done(result)
    {
      CanStep(p);
      var seen := ContentOf(state, LastName(state.calls[p].task));
      var ok: bool := *;
      if ok {
        result := if seen.Some? then Saw(seen) else WriteFailed;
      } else {
        var there: bool := *;
        result := if there then Saw(None) else WriteFailed;
      }
      Take(p, Moved(state, p, Done(result)));
    }

    /** Other processes take any number of steps, each of them in its own phase. */
    method LetOthersRun(p: nat)
      requires Valid() && p < |state.calls|
      modifies this
      ensures Valid() && old(run) <= run && |state.calls| == |old(state.calls)| && state.calls[p] == old(state.calls[p])
    {
      var steps: int := *;
      for i := 0 to if steps < 0 then 0 else steps
        invariant Valid() && old(run) <= run && |state.calls| == |old(state.calls)| && state.calls[p] == old(state.calls[p])
      {
        var q: int := *;
        if 0 <= q < |state.calls| && q != p {
          StepOf(q);
        }
      }
    }

    method StepOf(q: nat)
      requires Valid() && q < |state.calls|
      modifies this
      ensures Valid() && old(run) <= run && OthersStand(old(state), state, q)
    {
      match state.calls[q].phase
      case Start => var _ := OpenTemp(q);
      case Writing(_) => var _ := WriteAll(q);
      case Ready(_) => var _ := CheckDirectory(q);
      case Linking(_, _) => var _ := Link(q);
      case Linked(_, _) => var _ := LookAtRecord(q);
      case Undoing(_, _) => UnlinkRecord(q);
      case Cleaning(_) => UnlinkTemp(q);
      case Looking => var _ := LookAtTarget(q);
      case Done(_) =>
    }

    /** What a call reports about its file, up to the removal of the temporary name. */
    method Publish(p: nat) returns (result: Result)
      requires Valid() && p < |state.calls| && state.calls[p].phase.Linking? && state.calls[p].phase.attempt == 0
      modifies this
      ensures Valid() && old(run) <= run && |state.calls| == |old(state.calls)| && state.calls[p].task == old(state.calls[p].task)
      ensures state.calls[p].phase == Cleaning(result) && !result.Saw?
    {
      CanStep(p);
      var names := state.calls[p].task.names;
      for attempt := 0 to |names|
        invariant Valid() && old(run) <= run && |state.calls| == |old(state.calls)| && state.calls[p].task == old(state.calls[p].task)
        invariant attempt < |names| ==> state.calls[p].phase.Linking? && state.calls[p].phase.attempt == attempt
        invariant attempt == |names| ==> state.calls[p].phase == Cleaning(WriteFailed)
      {
        LetOthersRun(p);
        var code := Link(p);
        if code == LinkFailed {
          return WriteFailed;
        }
        if code == LinkMade {
          LetOthersRun(p);
          var same := LookAtRecord(p);
          if same {
            return Created(names[attempt]);
          }
          LetOthersRun(p);
          UnlinkRecord(p);
          return WriteFailed;
        }
      }
      result := WriteFailed;
    }

    /** createNewRecord: every execution of it, among any others, is a run of the machine. */
    method CreateNewRecord(p: nat) returns (result: Result)
      requires Stands(p, Start)
      modifies this
      ensures Valid() && old(run) <= run && |state.calls| == |old(state.calls)| && state.calls[p].task == old(state.calls[p].task)
      ensures state.calls[p].phase == AfterCleaning(state.calls[p].task, result) && !result.Saw?
      ensures result.Created? ==> ContentOf(state, Record(result.name)) == Some(state.calls[p].task.bytes)
    {
      var ok := OpenTemp(p);
      if !ok {
        return WriteFailed;
      }
      LetOthersRun(p);
      ok := WriteAll(p);
      if !ok {
        UnlinkTemp(p);
        return WriteFailed;
      }
      LetOthersRun(p);
      ok := CheckDirectory(p);
      if ok {
        result := Publish(p);
      } else {
        result := Unsafe;
      }
      LetOthersRun(p);
      UnlinkTemp(p);
      if result.Created? {
        Confirmed(p, result.name);
      }
    }

    lemma Confirmed(p: nat, name: string)
      requires Stands(p, Done(Created(name)))
      ensures ContentOf(state, Record(name)) == Some(state.calls[p].task.bytes)
    {
      hide Fresh, Step, Holds, ContentOf, Kept;
      RunHolds(run, |run| - 1);
      SuccessIsKept(state, p, name);
    }

    /** writeConfirmationRecord */
    method WriteConfirmation(p: nat, read: Bytes -> Option<Confirmation>, fingerprint: string) returns (answer: Answer)
      requires Stands(p, Start) && state.calls[p].task.looks
      modifies this
      ensures Valid() && old(run) <= run && |state.calls| == |old(state.calls)| && state.calls[p].task == old(state.calls[p].task)
      ensures state.calls[p].phase.Done? && answer == AnswerOf(read, fingerprint, state.calls[p].phase.result)
    {
      var result := CreateNewRecord(p);
      if result == WriteFailed {
        LetOthersRun(p);
        result := LookAtTarget(p);
      }
      answer := AnswerOf(read, fingerprint, result);
    }
  }

  /** The other calls have not moved, and the tasks are the same. */
  ghost predicate OthersStand(before: State, after: State, p: nat) {
    && |after.calls| == |before.calls| && p < |after.calls| && after.calls[p].task == before.calls[p].task
    && forall q :: 0 <= q < |after.calls| && q != p ==> after.calls[q] == before.calls[q]
  }

  predicate ContentWritten(s: State, p: nat, size: nat)
    requires p < |s.calls|
  {
    && s.calls[p].phase.Writing? && s.calls[p].phase.file in s.files && size <= |s.calls[p].task.bytes|
    && s.files[s.calls[p].phase.file].content == s.calls[p].task.bytes[..size]
  }

  lemma HoldsCall(s: State, p: nat)
    requires Holds(s) && p < |s.calls|
    ensures GoodTask(s.calls[p].task) && InRange(s.calls[p]) && CallHolds(s, p)
  {
    assert CallHolds(s, p);
  }

  /** A record that was created is in place with exactly its bytes in every later state. */
  lemma CreatedIsKept(run: seq<State>, i: nat, j: nat, p: nat, name: string)
    requires Run(run) && i <= j < |run| && p < |run[i].calls| && Succeeded(run[i].calls[p], name)
    ensures ContentOf(run[j], Record(name)) == Some(run[i].calls[p].task.bytes)
  {
    hide Fresh, Step, Holds, ContentOf, Kept;
    RunHolds(run, i);
    SuccessIsKept(run[i], p, name);
    KeptForever(run, i, j, Record(name));
  }
}
