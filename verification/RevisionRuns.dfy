/**
 What holds over every run of the review page
 (packages/core/src/review/annotation-state.ts:271-414).
 */
module RevisionRuns {
  import opened Foundations
  import opened RevisionModel
  import opened SupersedesChain
  import opened RevisionState

  /** Every superseded request is in the list and exported. */
  ghost predicate TargetsHeld(state: State) {
    forall i :: 0 <= i < |state| && state[i].revision.supersedes.Some? ==>
      exists j :: 0 <= j < |state| && state[j].revision.id == state[i].revision.supersedes.value && state[j].exported
  }

  ghost predicate DistinctIds(state: State) {
    Distinct(Ids(Revisions(state)))
  }

  ghost predicate PageHolds(state: State) {
    && DistinctIds(state) && |state| <= MAX_REVISIONS && TargetsHeld(state)
    && OneSuccessor(Revisions(state)) && AllEnd(Revisions(state))
    && forall i :: 0 <= i < |state| ==> ValidRevision(state[i].revision)
  }

  // ---------------------------------------------------------------------
  // Looking things up
  // ---------------------------------------------------------------------

  lemma IdsDiffer(state: State, i: nat, j: nat)
    requires DistinctIds(state) && i < |state| && j < |state| && state[i].revision.id == state[j].revision.id
    ensures i == j
  {
    assert Ids(Revisions(state))[i] == Ids(Revisions(state))[j];
  }

  lemma IdsApart(state: State, i: nat, j: nat)
    requires DistinctIds(state) && i < j < |state|
    ensures state[i].revision.id != state[j].revision.id
  {
    assert Ids(Revisions(state))[i] != Ids(Revisions(state))[j];
  }

  /** With differing ids there is one entry to find. */
  lemma FoundAt(state: State, id: string)
    requires DistinctIds(state)
    ensures FindRequest(state, id) == Target(state, id)
    ensures FindRequest(state, id).Some? ==> exists i :: 0 <= i < |state| && state[i] == FindRequest(state, id).value
  {
    if FindRequest(state, id).Some? {
      var e := FindRequest(state, id).value;
      var i :| 0 <= i < |state| && state[i] == e;
      assert Target(state, id).Some?;
      var j :| 0 <= j < |state| && state[j] == Target(state, id).value;
      IdsDiffer(state, i, j);
    }
  }

  lemma FindsEntry(state: State, i: nat)
    requires DistinctIds(state) && i < |state|
    ensures FindRequest(state, state[i].revision.id) == Some(state[i]) && Target(state, state[i].revision.id) == Some(state[i])
  {
    var id := state[i].revision.id;
    assert state[i] in state;
    assert FindRequest(state, id).Some?;
    var j :| 0 <= j < |state| && state[j] == FindRequest(state, id).value;
    IdsDiffer(state, i, j);
    FoundAt(state, id);
  }

  lemma RevisionsAppend(state: State, e: Entry)
    ensures Revisions(state + [e]) == Revisions(state) + [e.revision]
  {
    assert (state + [e])[..|state|] == state;
  }

  lemma IdsAppend(list: seq<Revision>, r: Revision)
    ensures Ids(list + [r]) == Ids(list) + [r.id]
  {
    assert (list + [r])[..|list|] == list;
  }

  lemma NewIdDiffers(state: State, e: Entry)
    requires DistinctIds(state) && FindRequest(state, e.revision.id).None?
    ensures DistinctIds(state + [e])
  {
    RevisionsAppend(state, e);
    IdsAppend(Revisions(state), e.revision);
    forall i | 0 <= i < |state| ensures Ids(Revisions(state))[i] != e.revision.id {
      assert state[i] in state;
    }
    DistinctAppend(Ids(Revisions(state)), e.revision.id);
  }

  /** The targets are held exactly if there is no problem with them. */
  lemma {:induction false} TargetProblemsMeaning(state: State, k: nat)
    requires k <= |state|
    ensures TargetProblems(state, k) == [] <==> forall i :: 0 <= i < k ==> !TargetProblem(state, state[i])
  {
    if k > 0 {
      TargetProblemsMeaning(state, k - 1);
    }
  }

  lemma {:induction false} NoProblemMeaning(state: State)
    requires DistinctIds(state) && OneSuccessor(Revisions(state))
    ensures (forall i :: 0 <= i < |state| ==> !TargetProblem(state, state[i])) <==> TargetsHeld(state)
  {
    hide Distinct;
    forall i | 0 <= i < |state| && state[i].revision.supersedes.Some?
      ensures !TargetProblem(state, state[i]) <==>
        exists j :: 0 <= j < |state| && state[j].revision.id == state[i].revision.supersedes.value && state[j].exported
    {
      assert !SupersedesItself(Revisions(state)[i]);
      var target := Target(state, state[i].revision.supersedes.value);
      if target.Some? {
        var j :| 0 <= j < |state| && state[j] == target.value;
        if k :| 0 <= k < |state| && state[k].revision.id == state[i].revision.supersedes.value && state[k].exported {
          IdsDiffer(state, j, k);
        }
      } else if j :| 0 <= j < |state| && state[j].revision.id == state[i].revision.supersedes.value && state[j].exported {
        assert state[j] in state;
      }
    }
  }

  /** supersedesProblems finds nothing exactly in a list whose chains and targets are in order. */
  lemma ProblemsMeaning(state: State)
    requires DistinctIds(state)
    ensures Problems(state) == [] <==> OneSuccessor(Revisions(state)) && AllEnd(Revisions(state)) && TargetsHeld(state)
  {
    hide OneSuccessor, AllEnd, TargetsHeld, TargetProblem, ConflictIds, DistinctIds;
    ConflictsMeaning(Revisions(state));
    TargetProblemsMeaning(state, |state|);
    if OneSuccessor(Revisions(state)) {
      NoProblemMeaning(state);
    }
  }

  // ---------------------------------------------------------------------
  // Chains and new requests
  // ---------------------------------------------------------------------

  /** Nothing in the list supersedes this id. */
  predicate Unclaimed(list: seq<Revision>, id: string) {
    forall i :: 0 <= i < |list| ==> list[i].supersedes != Some(id)
  }

  lemma {:induction false} OldChainsEnd(list: seq<Revision>, r: Revision, latest: Revision, n: nat)
    requires EndsWithin(list, r, n) && Unclaimed(list, latest.id) && r.supersedes != Some(latest.id)
    ensures EndsWithin(list + [latest], r, n)
    decreases n
  {
    var longer := list + [latest];
    assert longer[..|list|] == list;
    if Older(list, r).Some? {
      var older := Older(list, r).value;
      var i :| 0 <= i < |list| && list[i] == older;
      OldChainsEnd(list, older, latest, n - 1);
    }
  }

  /** A new revision that nothing supersedes leaves every chain with an end. */
  lemma NewChainsEnd(list: seq<Revision>, r: Revision)
    requires AllEnd(list) && Unclaimed(list, r.id) && r.supersedes != Some(r.id)
    ensures AllEnd(list + [r])
  {
    hide EndsWithin;
    var longer := list + [r];
    forall i | 0 <= i < |list| ensures Ends(longer, list[i]) {
      var n: nat :| EndsWithin(list, list[i], n);
      OldChainsEnd(list, list[i], r, n);
    }
    LastChainEnds(list, r);
  }

  lemma LastChainEnds(list: seq<Revision>, r: Revision)
    requires AllEnd(list) && Unclaimed(list, r.id) && r.supersedes != Some(r.id)
    ensures Ends(list + [r], r)
  {
    hide EndsWithin;
    var longer := list + [r];
    EndsStep(longer, r);
    if Older(longer, r).Some? {
      assert longer[..|list|] == list;
      var older := Older(longer, r).value;
      var i :| 0 <= i < |list| && list[i] == older;
      var n: nat :| EndsWithin(list, older, n);
      OldChainsEnd(list, older, r, n);
    }
  }

  /** What a new request may supersede: nothing, or an exported request that is not superseded yet. */
  predicate GoodTarget(state: State, supersedes: Option<string>) {
    supersedes.None? ||
    (FindRequest(state, supersedes.value).Some? && FindRequest(state, supersedes.value).value.exported &&
     !IsSuperseded(state, supersedes.value))
  }

  lemma NewTargetsHeld(state: State, e: Entry)
    requires DistinctIds(state) && TargetsHeld(state) && e.revision.supersedes != Some(e.revision.id)
    ensures TargetsHeld(state + [e]) <==>
      e.revision.supersedes.None? ||
      (FindRequest(state, e.revision.supersedes.value).Some? && FindRequest(state, e.revision.supersedes.value).value.exported)
  {
    hide Distinct;
    var longer := state + [e];
    forall i | 0 <= i < |state| && state[i].revision.supersedes.Some?
      ensures exists j :: 0 <= j < |longer| && longer[j].revision.id == state[i].revision.supersedes.value && longer[j].exported
    {
      var j :| 0 <= j < |state| && state[j].revision.id == state[i].revision.supersedes.value && state[j].exported;
      assert longer[j] == state[j];
    }
    if e.revision.supersedes.Some? {
      var id := e.revision.supersedes.value;
      if TargetsHeld(longer) {
        assert longer[|state|] == e;
        var j :| 0 <= j < |longer| && longer[j].revision.id == id && longer[j].exported;
        FindsEntry(state, j);
      }
      if FindRequest(state, id).Some? && FindRequest(state, id).value.exported {
        FoundAt(state, id);
        var j :| 0 <= j < |state| && state[j] == FindRequest(state, id).value;
        assert longer[j] == state[j];
      }
    }
  }

  lemma NewSuccessor(list: seq<Revision>, r: Revision)
    requires OneSuccessor(list) && !SupersedesItself(r)
    ensures OneSuccessor(list + [r]) <==> r.supersedes.None? || Unclaimed(list, r.supersedes.value)
  {
    var longer := list + [r];
    if OneSuccessor(longer) && r.supersedes.Some? {
      forall i | 0 <= i < |list| ensures list[i].supersedes != r.supersedes {
        assert longer[i] == list[i] && longer[|list|] == r;
      }
    }
  }

  lemma HeldAreFound(state: State, id: string)
    requires TargetsHeld(state) && FindRequest(state, id).None?
    ensures Unclaimed(Revisions(state), id)
  {
    forall e | e in state ensures e.revision.id != id {
    }
    forall i | 0 <= i < |state| && state[i].revision.supersedes.Some? ensures state[i].revision.supersedes.value != id {
      var j :| 0 <= j < |state| && state[j].revision.id == state[i].revision.supersedes.value && state[j].exported;
      assert state[j] in state;
    }
  }

  lemma ClaimsAreSuperseded(state: State, id: string)
    ensures Unclaimed(Revisions(state), id) <==> !IsSuperseded(state, id)
  {
    if !Unclaimed(Revisions(state), id) {
      var i :| 0 <= i < |state| && Revisions(state)[i].supersedes == Some(id);
      assert state[i].revision.supersedes == Some(id);
    }
    if IsSuperseded(state, id) {
      var i :| 0 <= i < |state| && state[i].revision.supersedes == Some(id);
      assert Revisions(state)[i].supersedes == Some(id);
    }
  }

  /** A valid new request keeps the page in order exactly if its target is a good one. */
  lemma {:induction false} AppendHolds(state: State, e: Entry)
    requires PageHolds(state) && |state| < MAX_REVISIONS && ValidRevision(e.revision)
    requires FindRequest(state, e.revision.id).None?
    ensures PageHolds(state + [e]) <==> GoodTarget(state, e.revision.supersedes)
  {
    hide ValidRevision, DistinctIds, OneSuccessor, AllEnd, TargetsHeld, Unclaimed, IsSuperseded;
    NotItself(e.revision);
    RevisionsAppend(state, e);
    NewIdDiffers(state, e);
    NewTargetsHeld(state, e);
    NewSuccessor(Revisions(state), e.revision);
    HeldAreFound(state, e.revision.id);
    NewChainsEnd(Revisions(state), e.revision);
    if e.revision.supersedes.Some? {
      ClaimsAreSuperseded(state, e.revision.supersedes.value);
    }
  }

  lemma NotItself(r: Revision)
    requires ValidRevision(r)
    ensures r.supersedes != Some(r.id) && !SupersedesItself(r)
  {
    hide IsRevisionId, IsSha256, ValidLocator, IsRealTime, IsKind;
  }

  // ---------------------------------------------------------------------
  // Changed requests
  // ---------------------------------------------------------------------

  /** The same ids and the same claims, place by place. */
  predicate SameChains(a: seq<Revision>, b: seq<Revision>) {
    |a| == |b| && forall i :: 0 <= i < |a| ==> a[i].id == b[i].id && a[i].supersedes == b[i].supersedes
  }

  /** Both lists find an id at the same place. */
  lemma {:induction false} FoundTogether(a: seq<Revision>, b: seq<Revision>, id: string) returns (k: int)
    requires SameChains(a, b)
    ensures Find(a, id).None? <==> Find(b, id).None?
    ensures Find(a, id).Some? ==> 0 <= k < |a| && a[k] == Find(a, id).value && b[k] == Find(b, id).value
    decreases |a|
  {
    if a == [] {
      k := 0;
    } else if a[|a| - 1].id == id {
      k := |a| - 1;
    } else {
      k := FoundTogether(a[..|a| - 1], b[..|b| - 1], id);
    }
  }

  lemma {:induction false} EndTogether(a: seq<Revision>, b: seq<Revision>, i: nat, n: nat)
    requires SameChains(a, b) && i < |a| && EndsWithin(a, a[i], n)
    ensures EndsWithin(b, b[i], n)
    decreases n
  {
    if a[i].supersedes.Some? {
      var k := FoundTogether(a, b, a[i].supersedes.value);
      if Older(a, a[i]).Some? {
        EndTogether(a, b, k, n - 1);
      }
    }
  }

  lemma ChainsTogether(a: seq<Revision>, b: seq<Revision>)
    requires SameChains(a, b)
    ensures Ids(a) == Ids(b)
    ensures OneSuccessor(a) ==> OneSuccessor(b)
    ensures AllEnd(a) ==> AllEnd(b)
  {
    hide EndsWithin;
    assert Ids(a) == Ids(b);
    if OneSuccessor(a) {
      forall i | 0 <= i < |b| ensures !SupersedesItself(b[i]) {
        assert !SupersedesItself(a[i]);
      }
    }
    if AllEnd(a) {
      forall i | 0 <= i < |b| ensures Ends(b, b[i]) {
        assert Ends(a, a[i]);
        var n: nat :| EndsWithin(a, a[i], n);
        EndTogether(a, b, i, n);
      }
    }
  }

  /** What was exported still is, with the same id. */
  predicate KeepsExported(state: State, after: State) {
    |after| == |state| && forall i :: 0 <= i < |state| && state[i].exported ==>
      after[i].exported && after[i].revision.id == state[i].revision.id
  }

  lemma TargetsTogether(state: State, after: State)
    requires TargetsHeld(state) && KeepsExported(state, after) && SameChains(Revisions(state), Revisions(after))
    ensures TargetsHeld(after)
  {
    forall i | 0 <= i < |after| && after[i].revision.supersedes.Some?
      ensures exists j :: 0 <= j < |after| && after[j].revision.id == after[i].revision.supersedes.value && after[j].exported
    {
      assert Revisions(state)[i].supersedes == Revisions(after)[i].supersedes;
      var j :| 0 <= j < |state| && state[j].revision.id == state[i].revision.supersedes.value && state[j].exported;
      assert after[j].exported;
    }
  }

  /** A change in place that keeps ids, claims, and exported flags keeps the page in order. */
  lemma InPlaceHolds(state: State, after: State)
    requires PageHolds(state) && KeepsExported(state, after) && SameChains(Revisions(state), Revisions(after))
    requires forall i :: 0 <= i < |after| ==> ValidRevision(after[i].revision)
    ensures PageHolds(after)
  {
    hide ValidRevision, TargetsHeld, OneSuccessor, AllEnd, Distinct;
    ChainsTogether(Revisions(state), Revisions(after));
    TargetsTogether(state, after);
  }

  lemma EditKeeps(current: Entry, changes: Changes)
    ensures var next := Edited(current, changes);
      next.revision.id == current.revision.id && next.revision.supersedes == current.revision.supersedes && !next.exported
  {
    hide NormalizeNewlines, TruncateText;
  }

  lemma OnlyOne(state: State, id: string)
    requires DistinctIds(state) && FindRequest(state, id).Some?
    ensures forall i :: 0 <= i < |state| && state[i].revision.id == id ==> state[i] == FindRequest(state, id).value
  {
    hide DistinctIds;
    forall i | 0 <= i < |state| && state[i].revision.id == id ensures state[i] == FindRequest(state, id).value {
      FindsEntry(state, i);
    }
  }

  /** A draft in the place of another one, with the same id and the same claim. */
  lemma ReplaceKeeps(state: State, id: string, current: Entry, next: Entry)
    requires forall i :: 0 <= i < |state| && state[i].revision.id == id ==> state[i] == current
    requires !current.exported && next.revision.id == current.revision.id == id
    requires next.revision.supersedes == current.revision.supersedes
    ensures KeepsExported(state, Replace(state, id, next))
    ensures SameChains(Revisions(state), Revisions(Replace(state, id, next)))
  {
  }

  lemma EditDraftHolds(state: State, id: string, changes: Changes)
    requires PageHolds(state) && EditDraft(state, id, changes).Changed?
    ensures PageHolds(EditDraft(state, id, changes).state)
  {
    hide ValidRevision, TargetsHeld, OneSuccessor, AllEnd, Edited, DraftFieldsOk, DistinctIds, KeepsExported, SameChains;
    var current := FindRequest(state, id).value;
    EditKeeps(current, changes);
    OnlyOne(state, id);
    ReplaceKeeps(state, id, current, Edited(current, changes));
    InPlaceHolds(state, EditDraft(state, id, changes).state);
  }

  lemma MarkHolds(state: State, ids: seq<string>)
    requires PageHolds(state)
    ensures PageHolds(MarkExported(state, ids))
  {
    hide ValidRevision, TargetsHeld, OneSuccessor, AllEnd, Distinct;
    InPlaceHolds(state, MarkExported(state, ids));
  }

  lemma EditExportedHolds(state: State, id: string, changes: Changes, stamp: Stamp)
    requires PageHolds(state) && EditExported(state, id, changes, stamp).Changed?
    ensures PageHolds(EditExported(state, id, changes, stamp).state)
  {
    hide ValidRevision, TargetsHeld, OneSuccessor, AllEnd, Distinct, CreateRequest;
    var current := FindRequest(state, id).value;
    var r := CreateRequest(Successor(current, changes), stamp);
    AppendHolds(state, WithFlags(r.value, false, current.pending));
  }

  /** Adding a draft keeps the page in order exactly if the draft supersedes nothing, or a good target. */
  lemma AddDraftHolds(state: State, draft: Draft, stamp: Stamp)
    requires PageHolds(state) && AddDraft(state, draft, stamp).Changed?
    ensures PageHolds(AddDraft(state, draft, stamp).state) <==> GoodTarget(state, draft.supersedes)
  {
    hide ValidRevision, TargetsHeld, OneSuccessor, AllEnd, Distinct, CreateRequest;
    AppendHolds(state, WithFlags(CreateRequest(draft, stamp).value, false, false));
  }

  // ---------------------------------------------------------------------
  // Restored sheets
  // ---------------------------------------------------------------------

  lemma {:induction false} NormalizedIsShorter(text: string)
    ensures Utf8Length(NormalizeNewlines(text)) <= Utf8Length(text)
  {
    if text == "" {
    } else if text[0] == '\r' {
      var rest := if |text| > 1 && text[1] == '\n' then text[2..] else text[1..];
      NormalizedIsShorter(rest);
      LengthOfConcat("\n", NormalizeNewlines(rest));
      assert Utf8Length("\n") == 1 by { assert "\n"[1..] == ""; }
      if |text| > 1 && text[1] == '\n' {
        assert text[1..][1..] == text[2..];
      }
    } else {
      NormalizedIsShorter(text[1..]);
      assert ([text[0]] + NormalizeNewlines(text[1..]))[1..] == NormalizeNewlines(text[1..]);
    }
  }

  lemma NormalizedIsValid(r: Revision)
    requires ValidRevision(r)
    ensures ValidRevision(NormalizedRevision(r))
  {
    hide NormalizeNewlines, Utf8Length, IsRevisionId, IsSha256, IsRealTime, IsKind, ValidLocator;
    NormalizedIsShorter(r.quote);
    NormalizedIsShorter(r.proposal);
    NormalizedIsShorter(r.rationale);
  }

  /** A sheet as parseSheet hands it over: valid revisions, every id once. */
  ghost predicate ProperSheet(sheet: seq<Revision>) {
    Distinct(Ids(sheet)) && forall i :: 0 <= i < |sheet| ==> ValidRevision(sheet[i])
  }

  lemma {:induction false} UnseenDistinct(state: State, sheet: seq<Revision>)
    requires Distinct(Ids(sheet))
    ensures Distinct(Ids(UnseenOf(state, sheet)))
    decreases |sheet|
  {
    if sheet != [] {
      var front, last := sheet[..|sheet| - 1], sheet[|sheet| - 1];
      assert Ids(sheet) == Ids(front) + [last.id];
      DistinctFront(Ids(front), last.id);
      UnseenDistinct(state, front);
      var unseen := UnseenOf(state, front);
      if FindRequest(state, last.id).None? {
        IdsAppend(unseen, last);
        UnseenIds(state, front, last.id);
        DistinctAppend(Ids(unseen), last.id);
      } else {
        assert UnseenOf(state, sheet) == unseen + [] == unseen;
      }
    }
  }

  lemma DistinctFront(ids: seq<string>, id: string)
    requires Distinct(ids + [id])
    ensures Distinct(ids) && id !in ids
  {
    var all := ids + [id];
    forall i, j | 0 <= i < j < |ids| ensures ids[i] != ids[j] {
      assert all[i] != all[j];
    }
    forall i | 0 <= i < |ids| ensures ids[i] != id {
      assert all[i] != all[|ids|];
    }
  }

  lemma UnseenIds(state: State, sheet: seq<Revision>, id: string)
    requires id !in Ids(sheet)
    ensures id !in Ids(UnseenOf(state, sheet))
  {
    var unseen := UnseenOf(state, sheet);
    forall i | 0 <= i < |unseen| ensures Ids(unseen)[i] != id {
      assert unseen[i] in sheet;
      var j :| 0 <= j < |sheet| && sheet[j] == unseen[i];
      assert Ids(sheet)[j] == unseen[i].id;
    }
  }

  lemma MergedIds(state: State, sheet: seq<Revision>, fingerprint: string, page: seq<Locator>)
    ensures Ids(Revisions(Merged(state, sheet, fingerprint, page))) == Ids(Revisions(state)) + Ids(UnseenOf(state, sheet))
  {
    hide InSheet, Attached, UnseenOf;
    var existing, entries := Existing(state, sheet, |state|), NewEntries(UnseenOf(state, sheet), fingerprint, page);
    var all := Ids(Revisions(existing + entries));
    var goal := Ids(Revisions(state)) + Ids(UnseenOf(state, sheet));
    assert forall i :: 0 <= i < |all| ==> all[i] == goal[i];
  }

  lemma DistinctConcat(a: seq<string>, b: seq<string>)
    requires Distinct(a) && Distinct(b) && forall i, j :: 0 <= i < |a| && 0 <= j < |b| ==> a[i] != b[j]
    ensures Distinct(a + b)
  {
  }

  lemma MergedDistinct(state: State, sheet: seq<Revision>, fingerprint: string, page: seq<Locator>)
    requires DistinctIds(state) && Distinct(Ids(sheet))
    ensures DistinctIds(Merged(state, sheet, fingerprint, page))
  {
    hide Distinct, Merged;
    var unseen := UnseenOf(state, sheet);
    UnseenDistinct(state, sheet);
    MergedIds(state, sheet, fingerprint, page);
    var a, b := Ids(Revisions(state)), Ids(unseen);
    forall i, j | 0 <= i < |a| && 0 <= j < |b| ensures a[i] != b[j] {
      assert unseen[j] in unseen && state[i] in state;
    }
    DistinctConcat(a, b);
  }

  lemma MergedValid(state: State, sheet: seq<Revision>, fingerprint: string, page: seq<Locator>)
    requires forall i :: 0 <= i < |state| ==> ValidRevision(state[i].revision)
    requires forall i :: 0 <= i < |sheet| ==> ValidRevision(sheet[i])
    ensures var merged := Merged(state, sheet, fingerprint, page);
      forall i :: 0 <= i < |merged| ==> ValidRevision(merged[i].revision)
  {
    hide ValidRevision, InSheet, Attached, NormalizedRevision;
    var unseen := UnseenOf(state, sheet);
    forall i | 0 <= i < |unseen| ensures ValidRevision(NormalizedRevision(unseen[i])) {
      assert unseen[i] in sheet;
      NormalizedIsValid(unseen[i]);
    }
  }

  /** A sheet that is accepted leaves the page in order. */
  lemma RestoreHolds(state: State, sheet: seq<Revision>, fingerprint: string, page: seq<Locator>)
    requires PageHolds(state) && ProperSheet(sheet) && Restore(state, sheet, fingerprint, page).RestoredTo?
    ensures PageHolds(Restore(state, sheet, fingerprint, page).state)
  {
    hide ValidRevision, Merged, Problems, TargetsHeld, OneSuccessor, AllEnd, DistinctIds, Distinct, Ids;
    var merged := Merged(state, sheet, fingerprint, page);
    HeldIsDistinct(state, sheet, fingerprint, page);
    MergedValid(state, sheet, fingerprint, page);
    ProblemsMeaning(merged);
  }

  lemma HeldIsDistinct(state: State, sheet: seq<Revision>, fingerprint: string, page: seq<Locator>)
    requires PageHolds(state) && ProperSheet(sheet)
    ensures DistinctIds(Merged(state, sheet, fingerprint, page))
  {
    hide ValidRevision, Merged, TargetsHeld, OneSuccessor, AllEnd;
    MergedDistinct(state, sheet, fingerprint, page);
  }
}
