/**
 Two calls that number their records: the second is past "1" when the first takes "1" back, and
 its record "2" then stands alone (packages/cli/src/review-records.ts:494-526).
 */
module RecordGap {
  import opened Foundations
  import opened RecordStore
  import opened RecordRaces

  const NAMES := ["1", "2"]
  const TASK := Task(NAMES, "", false)

  /** The two calls in their phases; each has written its empty file under its own temporary name. */
  function Both(dir: map<Name, Entry>, first: Phase, second: Phase): State {
    State(dir, map[0 := File("", Some(0)), 1 := File("", Some(1))], [Call(TASK, first), Call(TASK, second)])
  }

  function Temps(): map<Name, Entry> {
    map[Temp(0) := LinkTo(0), Temp(1) := LinkTo(1)]
  }

  function WithFirst(): map<Name, Entry> {
    Temps()[Record("1") := LinkTo(0)]
  }

  /** The states in their order. */
  function At(i: nat): State
    requires i < 12
  {
    match i
    case 0 => State(map[], map[], [Call(TASK, Start), Call(TASK, Start)])
    case 1 => State(map[Temp(0) := LinkTo(0)], map[0 := File("", Some(0))], [Call(TASK, Writing(0)), Call(TASK, Start)])
    case 2 => Both(Temps(), Writing(0), Writing(1))
    case 3 => Both(Temps(), Ready(0), Writing(1))
    case 4 => Both(Temps(), Ready(0), Ready(1))
    case 5 => Both(Temps(), Linking(0, 0), Ready(1))
    case 6 => Both(Temps(), Linking(0, 0), Linking(1, 0))
    case 7 => Both(WithFirst(), Linked(0, 0), Linking(1, 0))
    case 8 => Both(WithFirst(), Linked(0, 0), Linking(1, 1))
    case 9 => Both(WithFirst(), Undoing(0, 0), Linking(1, 1))
    case 10 => Both(Temps(), Cleaning(WriteFailed), Linking(1, 1))
    case _ => Both(Temps()[Record("2") := LinkTo(1)], Cleaning(WriteFailed), Linked(1, 1))
  }

  lemma FirstOpens()
    ensures Next(At(0), At(1))
  {
    var s := At(0);
    assert Moved(s.(dir := s.dir[Temp(0) := LinkTo(0)], files := s.files[0 := File("", Some(0))]), 0, Writing(0)) == At(1);
    assert Step(At(0), 0, At(1));
  }

  lemma SecondOpens()
    ensures Next(At(1), At(2))
  {
    var s := At(1);
    assert Moved(s.(dir := s.dir[Temp(1) := LinkTo(1)], files := s.files[1 := File("", Some(1))]), 1, Writing(1)) == At(2);
    assert Step(At(1), 1, At(2));
  }

  lemma BothAreReady()
    ensures Next(At(2), At(3)) && Next(At(3), At(4))
  {
    assert Step(At(2), 0, At(3));
    assert Step(At(3), 1, At(4));
  }

  lemma BothWillLink()
    ensures Next(At(4), At(5)) && Next(At(5), At(6))
  {
    assert Step(At(4), 0, At(5));
    assert Step(At(5), 1, At(6));
  }

  lemma FirstLinks()
    ensures Next(At(6), At(7))
  {
    assert LinkStep(At(6), 0, 0, 0, At(7));
    assert Step(At(6), 0, At(7));
  }

  lemma SecondGoesOn()
    ensures Next(At(7), At(8))
  {
    assert LinkStep(At(7), 1, 1, 0, At(8));
    assert Step(At(7), 1, At(8));
  }

  lemma LookFails()
    ensures Next(At(8), At(9))
  {
    assert Step(At(8), 0, At(9));
  }

  lemma FirstIsTakenBack()
    ensures Next(At(9), At(10)) && TakesBack(At(9), 0, At(10), 0)
  {
    assert WithFirst() - {Record("1")} == Temps();
    assert Step(At(9), 0, At(10));
  }

  lemma SecondLinks()
    ensures Next(At(10), At(11)) && !GapFree(At(11), NAMES)
  {
    assert LinkStep(At(10), 1, 1, 1, At(11));
    assert Step(At(10), 1, At(11));
    assert Taken(At(11), NAMES, 1) && !Taken(At(11), NAMES, 0);
  }

  lemma EachIsNext(i: nat)
    requires 0 < i < 12
    ensures Next(At(i - 1), At(i))
  {
    hide *;
    FirstOpens();
    SecondOpens();
    BothAreReady();
    BothWillLink();
    FirstLinks();
    SecondGoesOn();
    LookFails();
    FirstIsTakenBack();
    SecondLinks();
  }

  lemma AtItsStart()
    ensures Fresh(At(0)) && Numbered(At(0), NAMES)
  {
  }

  lemma AtTheUndo()
    ensures InOrder(At(9), NAMES) && !Taken(At(9), NAMES, 1) && GapFree(At(10), NAMES)
  {
    assert Taken(At(9), NAMES, 0);
  }

  function History(): (run: seq<State>)
    ensures |run| == 12 && forall i :: 0 <= i < 12 ==> run[i] == At(i)
  {
    seq(12, i requires 0 <= i < 12 => At(i))
  }

  /** No higher number is taken when "1" is taken back, and there is no gap then; and yet the run ends with one. */
  lemma UndoCanLeaveGap()
    ensures Run(History()) && Numbered(History()[0], NAMES) && InOrder(History()[9], NAMES)
    ensures TakesBack(History()[9], 0, History()[10], 0) && !Taken(History()[9], NAMES, 1)
    ensures GapFree(History()[10], NAMES) && !GapFree(History()[11], NAMES)
  {
    hide At, Next, Fresh, Numbered, InOrder, TakesBack, Taken, GapFree;
    forall i | 0 < i < 12 ensures Next(History()[i - 1], History()[i]) {
      EachIsNext(i);
    }
    AtItsStart();
    AtTheUndo();
    FirstIsTakenBack();
    SecondLinks();
  }
}
