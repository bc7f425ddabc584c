/**
 Many processes creating records in one directory: each writes a temporary file, hard-links it
 to a record name and removes the temporary name again (createNewRecord in
 packages/cli/src/review-records.ts:432-536, writeConfirmationRecord in
 packages/cli/src/review-confirm-write.ts:104-159). A state machine: any process may take its
 next step at any time, or never.
 */
module RecordStore {
  import opened Foundations

  type Bytes = string

  /** A temporary name never looks like a record name. */
  datatype Name = Temp(call: nat) | Record(text: string)

  datatype Entry = LinkTo(file: nat) | Symlink

  /** Content, and the call that wrote it; files that were there before have no writer. */
  datatype File = File(content: Bytes, writer: Option<nat>)

  /** The names to try in turn, the bytes to write, and whether a failed call looks at its last name. */
  datatype Task = Task(names: seq<string>, bytes: Bytes, looks: bool)

  datatype Result =
    | Created(name: string)
    | WriteFailed
    | Unsafe
    | Saw(content: Option<Bytes>)

  datatype Phase =
    | Start
    | Writing(file: nat)
    | Ready(file: nat)
    | Linking(file: nat, attempt: nat)
    | Linked(file: nat, attempt: nat)
    | Undoing(file: nat, attempt: nat)
    | Cleaning(outcome: Result)
    | Looking
    | Done(result: Result)

  datatype Call = Call(task: Task, phase: Phase)

  datatype State = State(dir: map<Name, Entry>, files: map<nat, File>, calls: seq<Call>)

  predicate GoodTask(task: Task) {
    task.names != []
  }

  function NameAt(task: Task, attempt: nat): Name
    requires attempt < |task.names|
  {
    Record(task.names[attempt])
  }

  function LastName(task: Task): Name
    requires GoodTask(task)
  {
    Record(task.names[|task.names| - 1])
  }

  function Moved(s: State, p: nat, phase: Phase): State
    requires p < |s.calls|
  {
    s.(calls := s.calls[p := s.calls[p].(phase := phase)])
  }

  /** What a process reads under a name: nothing through a symbolic link. */
  function ContentOf(s: State, name: Name): Option<Bytes> {
    if name in s.dir && s.dir[name].LinkTo? && s.dir[name].file in s.files then Some(s.files[s.dir[name].file].content) else None
  }

  /** After the temporary name is gone, a failed confirmation looks at its target. */
  function AfterCleaning(task: Task, outcome: Result): Phase {
    if outcome == WriteFailed && task.looks then Looking else Done(outcome)
  }

  // ---------------------------------------------------------------------
  // Steps
  // ---------------------------------------------------------------------

  ghost predicate Opens(s: State, p: nat, s': State)
    requires p < |s.calls|
  {
    exists id :: id !in s.files &&
      s' == Moved(s.(dir := s.dir[Temp(p) := LinkTo(id)], files := s.files[id := File([], Some(p))]), p, Writing(id))
  }

  predicate HasWritten(s: State, p: nat, id: nat, k: nat, s': State)
    requires p < |s.calls| && id in s.files
  {
    && k <= |s.calls[p].task.bytes|
    && s' == s.(files := s.files[id := s.files[id].(content := s.calls[p].task.bytes[..k])])
  }

  /** More of the bytes are written, all of them in the end. */
  ghost predicate Writes(s: State, p: nat, id: nat, s': State)
    requires p < |s.calls|
  {
    id in s.files && exists k: nat :: HasWritten(s, p, id, k, s')
  }

  ghost predicate LinkStep(s: State, p: nat, id: nat, attempt: nat, s': State)
    requires p < |s.calls| && attempt < |s.calls[p].task.names|
  {
    var task := s.calls[p].task;
    var name := NameAt(task, attempt);
    if name !in s.dir then s' == Moved(s.(dir := s.dir[name := LinkTo(id)]), p, Linked(id, attempt))
    else if attempt + 1 < |task.names| then s' == Moved(s, p, Linking(id, attempt + 1))
    else s' == Moved(s, p, Cleaning(WriteFailed))
  }

  /** The final name is looked at: it must be the file that was written. */
  ghost predicate CheckStep(s: State, p: nat, id: nat, attempt: nat, s': State)
    requires p < |s.calls| && attempt < |s.calls[p].task.names|
  {
    var name := NameAt(s.calls[p].task, attempt);
    if name in s.dir && s.dir[name] == LinkTo(id) then s' == Moved(s, p, Cleaning(Created(name.text)))
    else s' == Moved(s, p, Undoing(id, attempt))
  }

  predicate InRange(call: Call) {
    match call.phase
    case Linking(_, attempt) => attempt < |call.task.names|
    case Linked(_, attempt) => attempt < |call.task.names|
    case Undoing(_, attempt) => attempt < |call.task.names|
    case _ => true
  }

  /** A step in which nothing goes wrong. */
  ghost predicate GoodStep(s: State, p: nat, s': State)
    requires p < |s.calls| && InRange(s.calls[p]) && GoodTask(s.calls[p].task)
  {
    var task := s.calls[p].task;
    match s.calls[p].phase
    case Start => Opens(s, p, s')
    case Writing(id) =>
      Writes(s, p, id, s') || (id in s.files && s.files[id].content == task.bytes && s' == Moved(s, p, Ready(id)))
    case Ready(id) => s' == Moved(s, p, Linking(id, 0))
    case Linking(id, attempt) => LinkStep(s, p, id, attempt, s')
    case Linked(id, attempt) => CheckStep(s, p, id, attempt, s')
    case Undoing(id, attempt) => s' == Moved(s.(dir := s.dir - {NameAt(task, attempt)}), p, Cleaning(WriteFailed))
    case Cleaning(outcome) => s' == Moved(s.(dir := s.dir - {Temp(p)}), p, AfterCleaning(task, outcome))
    case Looking => s' == Moved(s, p, Done(if ContentOf(s, LastName(task)).Some? then Saw(ContentOf(s, LastName(task))) else WriteFailed))
    case Done(_) => false
  }

  /** A step in which the file system or the directory check fails. */
  ghost predicate FaultStep(s: State, p: nat, s': State)
    requires p < |s.calls|
  {
    match s.calls[p].phase
    case Start => s' == Moved(s, p, AfterCleaning(s.calls[p].task, WriteFailed)) || s' == Moved(s, p, Done(Unsafe))
    case Writing(id) => s' == Moved(s, p, Cleaning(WriteFailed))
    case Ready(id) => s' == Moved(s, p, Cleaning(Unsafe))
    case Linking(id, attempt) => s' == Moved(s, p, Cleaning(WriteFailed))
    case Linked(id, attempt) => s' == Moved(s, p, Undoing(id, attempt))
    case Undoing(id, attempt) => s' == Moved(s, p, Cleaning(WriteFailed))
    case Cleaning(outcome) => s' == Moved(s, p, AfterCleaning(s.calls[p].task, outcome))
    case Looking => s' == Moved(s, p, Done(WriteFailed)) || s' == Moved(s, p, Done(Saw(None)))
    case Done(_) => false
  }

  /** Process p takes a step. */
  ghost predicate Step(s: State, p: nat, s': State) {
    p < |s.calls| && InRange(s.calls[p]) && GoodTask(s.calls[p].task) && (GoodStep(s, p, s') || FaultStep(s, p, s'))
  }

  // ---------------------------------------------------------------------
  // What every step keeps
  // ---------------------------------------------------------------------

  /** A file that was there before, or all the bytes of the call that wrote it. */
  predicate Complete(s: State, id: nat) {
    && id in s.files
    && (s.files[id].writer.Some? ==>
          s.files[id].writer.value < |s.calls| && s.files[id].content == s.calls[s.files[id].writer.value].task.bytes)
  }

  predicate WrittenBy(s: State, id: nat, p: nat) {
    id in s.files && s.files[id].writer == Some(p)
  }

  /** The name leads to the whole file of this call. */
  predicate Owns(s: State, p: nat, id: nat, name: Name) {
    name in s.dir && s.dir[name] == LinkTo(id) && WrittenBy(s, id, p) && Complete(s, id)
  }

  ghost predicate HasCreated(s: State, p: nat, name: string) {
    exists id :: Owns(s, p, id, Record(name))
  }

  /** What is true of one call in its phase. */
  ghost predicate CallHolds(s: State, p: nat)
    requires p < |s.calls|
  {
    var call := s.calls[p];
    && GoodTask(call.task) && InRange(call)
    && match call.phase
       case Start => forall id :: !WrittenBy(s, id, p)
       case Writing(id) => WrittenBy(s, id, p)
       case Ready(id) => WrittenBy(s, id, p) && Complete(s, id)
       case Linking(id, _) => WrittenBy(s, id, p) && Complete(s, id)
       case Linked(id, attempt) => Owns(s, p, id, NameAt(call.task, attempt))
       case Undoing(id, attempt) => Owns(s, p, id, NameAt(call.task, attempt))
       case Cleaning(outcome) => outcome.Created? ==> HasCreated(s, p, outcome.name)
       case Looking => true
       case Done(result) => result.Created? ==> HasCreated(s, p, result.name)
  }

  /** While a call writes, its file has no other name than the temporary one. */
  predicate Unlinked(call: Call) {
    call.phase.Writing? || call.phase.Start?
  }

  /** A whole file that nobody writes to any more. */
  predicate Settled(s: State, id: nat) {
    Complete(s, id) && (s.files[id].writer.Some? ==> !Unlinked(s.calls[s.files[id].writer.value]))
  }

  ghost predicate EntriesHold(s: State) {
    forall name :: name in s.dir && name.Record? && s.dir[name].LinkTo? ==> Settled(s, s.dir[name].file)
  }

  /** Each call writes at most one file. */
  predicate OneFileEach(s: State) {
    && (forall id :: id in s.files && s.files[id].writer.Some? ==> s.files[id].writer.value < |s.calls|)
    && forall i, j :: i in s.files && j in s.files && s.files[i].writer.Some? && s.files[i].writer == s.files[j].writer ==> i == j
  }

  ghost predicate Holds(s: State) {
    OneFileEach(s) && EntriesHold(s) && forall p :: 0 <= p < |s.calls| ==> CallHolds(s, p)
  }

  /** What a step of one process leaves alone. */
  ghost predicate Frame(s: State, p: nat, s': State) {
    && |s'.calls| == |s.calls| && (forall q :: 0 <= q < |s.calls| ==> s'.calls[q].task == s.calls[q].task)
    && (forall q :: 0 <= q < |s.calls| && q != p ==> s'.calls[q] == s.calls[q])
    && (forall id :: id in s.files ==> id in s'.files && s'.files[id].writer == s.files[id].writer)
    && (forall id :: id in s.files && s.files[id].writer != Some(p) ==> s'.files[id] == s.files[id])
    && (forall id :: id in s'.files && id !in s.files ==> s'.files[id].writer == Some(p))
  }

  /** Record names lead where they led, unless they lead to a file of this process. */
  ghost predicate NamesStay(s: State, p: nat, s': State) {
    forall name :: name in s.dir && name.Record? && !(s.dir[name].LinkTo? && WrittenBy(s, s.dir[name].file, p)) ==>
      name in s'.dir && s'.dir[name] == s.dir[name]
  }

  lemma OpensFrame(s: State, p: nat, s': State)
    requires p < |s.calls| && Opens(s, p, s')
    ensures Frame(s, p, s') && NamesStay(s, p, s')
  {
  }

  lemma WritesFrame(s: State, p: nat, id: nat, s': State)
    requires p < |s.calls| && WrittenBy(s, id, p) && Writes(s, p, id, s')
    ensures Frame(s, p, s') && NamesStay(s, p, s')
  {
  }

  lemma MovedFrame(s: State, p: nat, dir: map<Name, Entry>, phase: Phase)
    requires p < |s.calls|
    ensures Frame(s, p, Moved(s.(dir := dir), p, phase))
  {
  }

  lemma StepFrame(s: State, p: nat, s': State)
    requires Holds(s) && Step(s, p, s')
    ensures Frame(s, p, s') && NamesStay(s, p, s')
  {
    hide Frame, OneFileEach, EntriesHold;
    assert CallHolds(s, p);
    if s.calls[p].phase.Start? && Opens(s, p, s') {
      OpensFrame(s, p, s');
    } else if s.calls[p].phase.Writing? && Writes(s, p, s.calls[p].phase.file, s') {
      WritesFrame(s, p, s.calls[p].phase.file, s');
    } else {
      MovedFrame(s, p, s'.dir, s'.calls[p].phase);
    }
  }

  lemma OtherCallHolds(s: State, p: nat, s': State, q: nat)
    requires Holds(s) && p < |s.calls| && q < |s.calls| && p != q && Frame(s, p, s') && NamesStay(s, p, s')
    ensures CallHolds(s', q)
  {
    assert CallHolds(s, q);
    var call := s.calls[q];
    match call.phase
    case Start =>
      forall id ensures !WrittenBy(s', id, q) {
        assert !WrittenBy(s, id, q);
      }
    case Cleaning(outcome) => if outcome.Created? { CreatedStays(s, p, s', q, outcome.name); }
    case Done(result) => if result.Created? { CreatedStays(s, p, s', q, result.name); }
    case _ =>
  }

  lemma CreatedStays(s: State, p: nat, s': State, q: nat, name: string)
    requires p < |s.calls| && q < |s.calls| && p != q && Frame(s, p, s') && NamesStay(s, p, s') && HasCreated(s, q, name)
    ensures HasCreated(s', q, name)
  {
    var id :| Owns(s, q, id, Record(name));
    assert Owns(s', q, id, Record(name));
  }

  lemma OpensHolds(s: State, p: nat, s': State)
    requires Holds(s) && p < |s.calls| && s.calls[p].phase.Start? && Opens(s, p, s')
    ensures CallHolds(s', p) && OneFileEach(s')
  {
    hide EntriesHold;
    assert CallHolds(s, p);
    var id :| id !in s.files &&
      s' == Moved(s.(dir := s.dir[Temp(p) := LinkTo(id)], files := s.files[id := File([], Some(p))]), p, Writing(id));
    forall i | i in s.files ensures s.files[i].writer != Some(p) {
      assert !WrittenBy(s, i, p);
    }
  }

  lemma OwnCallHolds(s: State, p: nat, s': State)
    requires Holds(s) && Step(s, p, s') && !s.calls[p].phase.Start?
    ensures CallHolds(s', p)
  {
    hide EntriesHold, OneFileEach;
    assert CallHolds(s, p);
    match s.calls[p].phase
    case Linked(id, attempt) =>
      if s' == Moved(s, p, Cleaning(Created(NameAt(s.calls[p].task, attempt).text))) {
        assert Owns(s', p, id, NameAt(s.calls[p].task, attempt));
      }
    case Linking(id, attempt) =>
      if GoodStep(s, p, s') && NameAt(s.calls[p].task, attempt) !in s.dir {
        assert Owns(s', p, id, NameAt(s.calls[p].task, attempt));
      }
    case Cleaning(outcome) =>
      if outcome.Created? {
        var id :| Owns(s, p, id, Record(outcome.name));
        assert Owns(s', p, id, Record(outcome.name));
      }
    case _ =>
  }

  lemma FilesHold(s: State, p: nat, s': State)
    requires Holds(s) && Step(s, p, s') && Frame(s, p, s') && !s.calls[p].phase.Start?
    ensures OneFileEach(s')
  {
    hide EntriesHold, CallHolds;
    assert s'.files.Keys == s.files.Keys;
  }

  /** The entry a step leaves under a record name: an old one, or the whole file of the process. */
  lemma EntryHolds(s: State, p: nat, s': State, name: Name)
    requires Holds(s) && Step(s, p, s') && Frame(s, p, s')
    requires name in s'.dir && name.Record? && s'.dir[name].LinkTo?
    ensures Settled(s', s'.dir[name].file)
  {
    hide OneFileEach;
    assert CallHolds(s, p);
    if name in s.dir && s.dir[name] == s'.dir[name] {
      assert Settled(s, s.dir[name].file);
    } else {
      assert s.calls[p].phase.Linking?;
    }
  }

  lemma StepKeeps(s: State, p: nat, s': State)
    requires Holds(s) && Step(s, p, s')
    ensures Holds(s')
  {
    hide Step, CallHolds, Frame, NamesStay, OneFileEach, Settled;
    StepFrame(s, p, s');
    SameSize(s, p, s');
    forall q | 0 <= q < |s'.calls| && q != p ensures CallHolds(s', q) {
      OtherCallHolds(s, p, s', q);
    }
    if s.calls[p].phase.Start? {
      StartKeeps(s, p, s');
    } else {
      OwnCallHolds(s, p, s');
      FilesHold(s, p, s');
    }
    forall name | name in s'.dir && name.Record? && s'.dir[name].LinkTo?
      ensures Settled(s', s'.dir[name].file)
    {
      EntryHolds(s, p, s', name);
    }
  }

  lemma SameSize(s: State, p: nat, s': State)
    requires Step(s, p, s') && Frame(s, p, s')
    ensures p < |s.calls| && |s'.calls| == |s.calls|
  {
  }

  lemma StartKeeps(s: State, p: nat, s': State)
    requires Holds(s) && Step(s, p, s') && s.calls[p].phase.Start?
    ensures CallHolds(s', p) && OneFileEach(s')
  {
    if Opens(s, p, s') {
      OpensHolds(s, p, s');
    }
  }
}
