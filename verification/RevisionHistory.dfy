/**
 Whole histories of the review page: what stays true, and what never changes again
 (packages/core/src/review/annotation-state.ts:271-414).
 */
module RevisionHistory {
  import opened Foundations
  import opened RevisionModel
  import opened SupersedesChain
  import opened RevisionState
  import opened RevisionRuns

  datatype Action =
    | Add(draft: Draft, stamp: Stamp)
    | Edit(id: string, changes: Changes, newer: Stamp)
    | Mark(ids: seq<string>)
    | RestoreSheet(sheet: seq<Revision>, fingerprint: string, page: seq<Locator>)

  function StateOr(outcome: Outcome, state: State): State {
    if outcome.Changed? then outcome.state else state
  }

  /** A refused action leaves the state as it is. */
  ghost function Apply(state: State, action: Action): State {
    match action
    case Add(draft, stamp) => StateOr(AddDraft(state, draft, stamp), state)
    case Edit(id, changes, newer) => StateOr(EditRequest(state, id, changes, newer), state)
    case Mark(ids) => MarkExported(state, ids)
    case RestoreSheet(sheet, fingerprint, page) =>
      var restored := Restore(state, sheet, fingerprint, page);
      if restored.RestoredTo? then restored.state else state
  }

  ghost function After(state: State, actions: seq<Action>): State {
    if actions == [] then state else Apply(After(state, actions[..|actions| - 1]), actions[|actions| - 1])
  }

  /** New drafts supersede nothing by themselves, and sheets have been parsed. */
  ghost predicate Proper(action: Action) {
    match action
    case Add(draft, _) => draft.supersedes.None?
    case RestoreSheet(sheet, _, _) => ProperSheet(sheet)
    case _ => true
  }

  lemma EmptyHolds()
    ensures PageHolds([])
  {
    assert Ids(Revisions([])) == [];
  }

  lemma EditHolds(state: State, id: string, changes: Changes, stamp: Stamp)
    requires PageHolds(state)
    ensures PageHolds(StateOr(EditRequest(state, id, changes, stamp), state))
  {
    hide PageHolds, EditDraft, EditExported;
    if EditRequest(state, id, changes, stamp).Changed? {
      if FindRequest(state, id).value.exported {
        EditExportedHolds(state, id, changes, stamp);
      } else {
        EditDraftHolds(state, id, changes);
      }
    }
  }

  lemma ActionHolds(state: State, action: Action)
    requires PageHolds(state) && Proper(action)
    ensures PageHolds(Apply(state, action))
  {
    hide PageHolds, EditRequest, MarkExported, Restore, AddDraft, ProperSheet;
    match action
    case Add(draft, stamp) =>
      if AddDraft(state, draft, stamp).Changed? {
        AddDraftHolds(state, draft, stamp);
      }
    case Edit(id, changes, newer) => EditHolds(state, id, changes, newer);
    case Mark(ids) => MarkHolds(state, ids);
    case RestoreSheet(sheet, fingerprint, page) =>
      if Restore(state, sheet, fingerprint, page).RestoredTo? {
        RestoreHolds(state, sheet, fingerprint, page);
      }
  }

  /** Whatever is done on the page: ids differ, targets exist and are exported, chains are in order. */
  lemma {:induction false} HistoryHolds(state: State, actions: seq<Action>)
    requires PageHolds(state) && forall a <- actions :: Proper(a)
    ensures PageHolds(After(state, actions))
  {
    hide PageHolds, Apply, Proper;
    if actions != [] {
      var front := actions[..|actions| - 1];
      HistoryHolds(state, front);
      ActionHolds(After(state, front), actions[|actions| - 1]);
    }
  }

  // ---------------------------------------------------------------------
  // Exported requests
  // ---------------------------------------------------------------------

  /** Every exported request is still at its place, with the same content, and exported. */
  predicate ExportedStay(state: State, after: State) {
    |state| <= |after| && forall i :: 0 <= i < |state| && state[i].exported ==>
      after[i].exported && after[i].revision == state[i].revision
  }

  lemma EditKeepsExported(state: State, id: string, changes: Changes)
    requires PageHolds(state) && EditDraft(state, id, changes).Changed?
    ensures ExportedStay(state, EditDraft(state, id, changes).state)
  {
    hide ValidRevision, TargetsHeld, OneSuccessor, AllEnd, Distinct, Edited, DraftFieldsOk;
    forall i | 0 <= i < |state| && state[i].revision.id == id ensures !state[i].exported {
      FindsEntry(state, i);
    }
  }

  lemma AppendKeepsExported(state: State, e: Entry)
    ensures ExportedStay(state, state + [e])
  {
  }

  lemma RestoreKeepsExported(state: State, sheet: seq<Revision>, fingerprint: string, page: seq<Locator>)
    ensures ExportedStay(state, Merged(state, sheet, fingerprint, page))
  {
    hide InSheet, Attached, NormalizedRevision, UnseenOf;
    assert forall i :: 0 <= i < |state| ==> Merged(state, sheet, fingerprint, page)[i] == Existing(state, sheet, |state|)[i];
  }

  lemma ActionKeepsExported(state: State, action: Action)
    requires PageHolds(state)
    ensures ExportedStay(state, Apply(state, action))
  {
    hide PageHolds, CreateRequest, EditDraft, Problems, Merged, ExportedStay, WithFlags, Clashing;
    SameStays(state);
    match action
    case Add(draft, stamp) =>
      if AddDraft(state, draft, stamp).Changed? {
        AppendKeepsExported(state, AddDraft(state, draft, stamp).entry);
      }
    case Edit(id, changes, newer) =>
      if EditRequest(state, id, changes, newer).Changed? {
        if FindRequest(state, id).value.exported {
          AppendKeepsExported(state, EditExported(state, id, changes, newer).entry);
        } else {
          EditKeepsExported(state, id, changes);
        }
      }
    case Mark(ids) => MarkKeepsExported(state, ids);
    case RestoreSheet(sheet, fingerprint, page) => RestoreKeepsExported(state, sheet, fingerprint, page);
  }

  lemma SameStays(state: State)
    ensures ExportedStay(state, state)
  {
  }

  lemma MarkKeepsExported(state: State, ids: seq<string>)
    ensures ExportedStay(state, MarkExported(state, ids))
  {
  }

  /** An exported request never changes again. */
  lemma {:induction false} ExportedForever(state: State, actions: seq<Action>)
    requires PageHolds(state) && forall a <- actions :: Proper(a)
    ensures ExportedStay(state, After(state, actions))
  {
    hide PageHolds, Apply, Proper;
    if actions != [] {
      var front := actions[..|actions| - 1];
      ExportedForever(state, front);
      HistoryHolds(state, front);
      ActionKeepsExported(After(state, front), actions[|actions| - 1]);
    }
  }

  // ---------------------------------------------------------------------
  // Order
  // ---------------------------------------------------------------------

  /** Whatever supersedes a request comes behind it. */
  ghost predicate OlderFirst(state: State) {
    forall i :: 0 <= i < |state| && state[i].revision.supersedes.Some? ==>
      exists j :: 0 <= j < i && state[j].revision.id == state[i].revision.supersedes.value
  }

  lemma OlderFirstInPlace(state: State, after: State)
    requires OlderFirst(state) && SameChains(Revisions(state), Revisions(after))
    ensures OlderFirst(after)
  {
    forall i | 0 <= i < |after| && after[i].revision.supersedes.Some?
      ensures exists j :: 0 <= j < i && after[j].revision.id == after[i].revision.supersedes.value
    {
      assert Revisions(state)[i].supersedes == Revisions(after)[i].supersedes;
      var j :| 0 <= j < i && state[j].revision.id == state[i].revision.supersedes.value;
      assert Revisions(state)[j].id == Revisions(after)[j].id;
    }
  }

  lemma OlderFirstAppend(state: State, e: Entry)
    requires OlderFirst(state)
    requires e.revision.supersedes.Some? ==> FindRequest(state, e.revision.supersedes.value).Some?
    ensures OlderFirst(state + [e])
  {
    var after := state + [e];
    forall i | 0 <= i < |after| && after[i].revision.supersedes.Some?
      ensures exists j :: 0 <= j < i && after[j].revision.id == after[i].revision.supersedes.value
    {
      if i < |state| {
        var j :| 0 <= j < i && state[j].revision.id == state[i].revision.supersedes.value;
        assert after[j] == state[j];
      } else {
        var found := FindRequest(state, e.revision.supersedes.value).value;
        var j :| 0 <= j < |state| && state[j] == found;
        assert after[j] == state[j];
      }
    }
  }

  lemma EditKeepsOrder(state: State, id: string, changes: Changes)
    requires PageHolds(state) && OlderFirst(state) && EditDraft(state, id, changes).Changed?
    ensures OlderFirst(EditDraft(state, id, changes).state)
  {
    hide ValidRevision, TargetsHeld, OneSuccessor, AllEnd, Edited, DraftFieldsOk, OlderFirst, DistinctIds, KeepsExported, SameChains;
    var current := FindRequest(state, id).value;
    EditKeeps(current, changes);
    OnlyOne(state, id);
    ReplaceKeeps(state, id, current, Edited(current, changes));
    OlderFirstInPlace(state, EditDraft(state, id, changes).state);
  }

  lemma ActionKeepsOrder(state: State, action: Action)
    requires PageHolds(state) && OlderFirst(state) && Proper(action) && !action.RestoreSheet?
    ensures OlderFirst(Apply(state, action))
  {
    hide PageHolds, CreateRequest, EditDraft, OlderFirst, IsSuperseded;
    match action
    case Add(draft, stamp) =>
      if AddDraft(state, draft, stamp).Changed? {
        OlderFirstAppend(state, AddDraft(state, draft, stamp).entry);
      }
    case Edit(id, changes, newer) =>
      if EditRequest(state, id, changes, newer).Changed? {
        if FindRequest(state, id).value.exported {
          OlderFirstAppend(state, EditExported(state, id, changes, newer).entry);
        } else {
          EditKeepsOrder(state, id, changes);
        }
      }
    case Mark(ids) => OlderFirstInPlace(state, MarkExported(state, ids));
  }

  /** Without restored sheets, every version stands behind the one it supersedes. */
  lemma {:induction false} OrderForever(state: State, actions: seq<Action>)
    requires PageHolds(state) && OlderFirst(state) && forall a <- actions :: Proper(a) && !a.RestoreSheet?
    ensures OlderFirst(After(state, actions))
  {
    hide PageHolds, OlderFirst, Apply, Proper;
    if actions != [] {
      var front := actions[..|actions| - 1];
      OrderForever(state, front);
      HistoryHolds(state, front);
      ActionKeepsOrder(After(state, front), actions[|actions| - 1]);
    }
  }

  // ---------------------------------------------------------------------
  // New versions
  // ---------------------------------------------------------------------

  /** How many of the first requests are not superseded. */
  function CurrentCount(state: State, k: nat): nat
    requires k <= |state|
  {
    if k == 0 then 0 else CurrentCount(state, k - 1) + if IsSuperseded(state, state[k - 1].revision.id) then 0 else 1
  }

  predicate AmongFirst(state: State, k: nat, id: string)
    requires k <= |state|
  {
    exists i :: 0 <= i < k && state[i].revision.id == id
  }

  lemma NewlySuperseded(state: State, e: Entry, id: string)
    ensures IsSuperseded(state + [e], id) <==> IsSuperseded(state, id) || e.revision.supersedes == Some(id)
  {
    var after := state + [e];
    if IsSuperseded(state, id) {
      var i :| 0 <= i < |state| && state[i].revision.supersedes == Some(id);
      assert after[i].revision.supersedes == Some(id);
    }
    assert after[|state|] == e;
  }

  lemma NotBefore(state: State, k: nat)
    requires DistinctIds(state) && k < |state|
    ensures !AmongFirst(state, k, state[k].revision.id)
  {
    forall i | 0 <= i < k ensures state[i].revision.id != state[k].revision.id {
      IdsApart(state, i, k);
    }
  }

  lemma {:induction false} CountDrops(state: State, e: Entry, id: string, k: nat)
    requires DistinctIds(state) && k <= |state| && e.revision.supersedes == Some(id) && !IsSuperseded(state, id)
    ensures CurrentCount(state + [e], k) == CurrentCount(state, k) - (if AmongFirst(state, k, id) then 1 else 0)
    decreases k
  {
    if k > 0 {
      CountDrops(state, e, id, k - 1);
      NewlySuperseded(state, e, state[k - 1].revision.id);
      NotBefore(state, k - 1);
    }
  }

  /** A new version takes the place of the one it supersedes: as many current requests as before. */
  lemma EditExportedKeepsCount(state: State, id: string, changes: Changes, stamp: Stamp)
    requires PageHolds(state) && EditExported(state, id, changes, stamp).Changed?
    ensures var after := EditExported(state, id, changes, stamp).state;
      |after| == |state| + 1 && CurrentCount(after, |after|) == CurrentCount(state, |state|)
  {
    hide ValidRevision, OneSuccessor, AllEnd, Distinct, CreateRequest;
    var e := EditExported(state, id, changes, stamp).entry;
    var after := state + [e];
    CountDrops(state, e, id, |state|);
    assert state == after[..|state|];
    var found := FindRequest(state, id).value;
    var i :| 0 <= i < |state| && state[i] == found;
    assert AmongFirst(state, |state|, id);
    NewIsCurrent(state, e);
  }

  lemma NewIsCurrent(state: State, e: Entry)
    requires PageHolds(state) && FindRequest(state, e.revision.id).None? && ValidRevision(e.revision)
    ensures !IsSuperseded(state + [e], e.revision.id)
  {
    hide ValidRevision, OneSuccessor, AllEnd, Distinct;
    NotItself(e.revision);
    HeldAreFound(state, e.revision.id);
    ClaimsAreSuperseded(state, e.revision.id);
    NewlySuperseded(state, e, e.revision.id);
  }

  // ---------------------------------------------------------------------
  // Restoring twice
  // ---------------------------------------------------------------------

  /** After a restore every revision of the sheet is on the page, exported and not marked as stored. */
  predicate Landed(state: State, r: Revision) {
    OnPage(state, r) && FindRequest(state, r.id).value.exported && !FindRequest(state, r.id).value.fromStorage
  }

  lemma {:induction false} NoClash(state: State, sheet: seq<Revision>, i: nat)
    requires Clashing(state, sheet) == [] && i < |sheet|
    ensures !Clashes(state, sheet[i])
    decreases |sheet|
  {
    if i < |sheet| - 1 {
      NoClash(state, sheet[..|sheet| - 1], i);
    }
  }

  lemma SheetLands(state: State, sheet: seq<Revision>, fingerprint: string, page: seq<Locator>, i: nat)
    requires PageHolds(state) && ProperSheet(sheet) && i < |sheet| && Clashing(state, sheet) == []
    ensures Landed(Merged(state, sheet, fingerprint, page), sheet[i])
  {
    hide ValidRevision, OneSuccessor, AllEnd, TargetsHeld, Distinct, DistinctIds, SameContent, Ids, NormalizedRevision, Attached;
    var merged, r := Merged(state, sheet, fingerprint, page), sheet[i];
    HeldIsDistinct(state, sheet, fingerprint, page);
    NoClash(state, sheet, i);
    if FindRequest(state, r.id).Some? {
      var e := FindRequest(state, r.id).value;
      var k :| 0 <= k < |state| && state[k] == e;
      assert InSheet(state, sheet, r.id);
      FindsEntry(merged, k);
    } else {
      var unseen := UnseenOf(state, sheet);
      assert r in unseen;
      var k :| 0 <= k < |unseen| && unseen[k] == r;
      NormalizedKeepsId(r);
      FindsEntry(merged, |state| + k);
      NormalizedIsSame(r);
    }
  }

  lemma NormalizedKeepsId(r: Revision)
    ensures NormalizedRevision(r).id == r.id
  {
  }

  lemma {:induction false} NothingUnseen(state: State, sheet: seq<Revision>)
    requires forall i :: 0 <= i < |sheet| ==> Landed(state, sheet[i])
    ensures UnseenOf(state, sheet) == [] && Clashing(state, sheet) == [] && SkippedOf(state, sheet) == |sheet|
    decreases |sheet|
  {
    hide SameContent;
    if sheet != [] {
      NothingUnseen(state, sheet[..|sheet| - 1]);
    }
  }

  lemma LandedStay(state: State, sheet: seq<Revision>, fingerprint: string, page: seq<Locator>)
    requires DistinctIds(state) && forall i :: 0 <= i < |sheet| ==> Landed(state, sheet[i])
    ensures Merged(state, sheet, fingerprint, page) == state
  {
    hide SameContent, Distinct, DistinctIds, Attached;
    NothingUnseen(state, sheet);
    var existing := Existing(state, sheet, |state|);
    forall k | 0 <= k < |state| ensures existing[k] == state[k] {
      FindsEntry(state, k);
      if InSheet(state, sheet, state[k].revision.id) {
        var i :| 0 <= i < |sheet| && sheet[i].id == state[k].revision.id && OnPage(state, sheet[i]);
        assert Landed(state, sheet[i]);
      }
    }
    assert existing == state;
  }

  /** Restoring the same sheet again changes nothing and skips every revision of it. */
  lemma RestoreTwice(state: State, sheet: seq<Revision>, fingerprint: string, page: seq<Locator>,
                                        laterFingerprint: string, laterPage: seq<Locator>)
    requires PageHolds(state) && ProperSheet(sheet) && Restore(state, sheet, fingerprint, page).RestoredTo?
    ensures var once := Restore(state, sheet, fingerprint, page).state;
      Restore(once, sheet, laterFingerprint, laterPage) == RestoredTo(once, 0, |sheet|, 0)
  {
    hide ValidRevision, OneSuccessor, AllEnd, TargetsHeld, Distinct, Ids, Landed, Merged, Problems;
    var once := Merged(state, sheet, fingerprint, page);
    forall i | 0 <= i < |sheet| ensures Landed(once, sheet[i]) {
      SheetLands(state, sheet, fingerprint, page, i);
    }
    HeldIsDistinct(state, sheet, fingerprint, page);
    NothingUnseen(once, sheet);
    LandedStay(once, sheet, laterFingerprint, laterPage);
  }
}
