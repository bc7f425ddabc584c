/**
 addDraft takes a draft whatever it supersedes (packages/core/src/review/annotation-state.ts:271-278):
 one that names a request the page does not have is added, and the page is out of order.
 */
module RevisionStray {
  import opened Foundations
  import opened RevisionModel
  import opened RevisionState
  import opened RevisionRuns
  import opened RevisionHistory

  function Times(c: char, n: nat): (text: string)
    ensures |text| == n && forall i :: 0 <= i < n ==> text[i] == c
  {
    seq(n, _ => c)
  }

  function Id(c: char): string {
    "REV-" + Times(c, 26)
  }

  /** 1111-11-11T11:11:11 */
  function Elevens(): (moment: string)
    ensures |moment| == 19
    ensures forall i :: 0 <= i < 19 ==>
      moment[i] == if i == 4 || i == 7 then '-' else if i == 10 then 'T' else if i == 13 || i == 16 then ':' else '1'
  {
    seq(19, i => if i == 4 || i == 7 then '-' else if i == 10 then 'T' else if i == 13 || i == 16 then ':' else '1')
  }

  const MOMENT := UtcTime(Elevens(), "", false)

  function Targets(): seq<Locator> {
    [Locator("a", "b", Times('0', 64))]
  }

  /** A draft that supersedes a request of which the empty page knows nothing. */
  function Stray(): Draft {
    Draft("delete", None, Some("x"), None, Targets(), None, Times('0', 64), Some(Id('1')))
  }

  lemma Texts()
    ensures NormalizeNewlines("x") == "x" && Utf8Length("x") == 1 && HasInk("x")
    ensures NormalizeNewlines("") == "" && Utf8Length("") == 0
  {
    NormalizedStays("x");
    assert "x"[1..] == "";
    assert !IsSpace("x"[0]);
  }

  lemma Ids()
    ensures IsRevisionId(Id('0')) && IsRevisionId(Id('1')) && Id('0') != Id('1')
  {
    assert Id('0')[4] == '0' && Id('1')[4] == '1';
    assert Id('0')[..4] == "REV-" && Id('1')[..4] == "REV-";
  }

  lemma TargetsAreValid()
    ensures 1 <= |Targets()| <= MAX_TARGETS && forall i :: 0 <= i < |Targets()| ==> ValidLocator(Targets()[i])
  {
    assert "a"[0] == 'a';
    assert IsRepoPath("a");
  }

  lemma MomentHasShape()
    ensures HasTimeShape(MOMENT.moment)
  {
    hide Elevens;
  }

  lemma MomentNumbers()
    ensures var m := MOMENT.moment;
      |m| == 19 && Two(m, 5) == 11 && Two(m, 8) == 11 && Two(m, 11) == 11 && Two(m, 14) == 11 && Two(m, 17) == 11
  {
    hide Elevens;
  }

  lemma MomentIsReal()
    ensures IsRealTime(MOMENT)
  {
    hide HasTimeShape, Two;
    MomentHasShape();
    MomentNumbers();
    assert DaysInMonth(100 * Two(MOMENT.moment, 0) + Two(MOMENT.moment, 2), 11) == 30;
  }

  lemma StrayIsAccepted()
    ensures CreateRequest(Stray(), Stamp(Id('0'), MOMENT)).Some?
  {
    hide Targets, Id, IsRevisionId, IsRealTime, ValidLocator, NormalizeNewlines, Utf8Length, HasInk, Times;
    Texts();
    Ids();
    TargetsAreValid();
    MomentIsReal();
    assert IsSha256(Times('0', 64));
  }

  lemma StrayDraftBreaksPage()
    ensures PageHolds([]) && AddDraft([], Stray(), Stamp(Id('0'), MOMENT)).Changed?
    ensures !PageHolds(AddDraft([], Stray(), Stamp(Id('0'), MOMENT)).state)
  {
    hide CreateRequest, PageHolds, Targets, Id, Times;
    EmptyHolds();
    StrayIsAccepted();
    AddDraftHolds([], Stray(), Stamp(Id('0'), MOMENT));
  }
}
